/**
 * The stateful core of the server: the room registry (`rooms`,
 * `roomsPublic`), rooms and their member lists, and users with their
 * `login`, `talk`, `command` and `disconnect` handlers. Everything the
 * server sends out is appended to the log of an `Io` object.
 */
module Server {
  import opened JsValues
  import opened Records
  import opened Events
  import opened Commands
  import opened Sessions

  /** socket.io as the core sees it: a log of the effects sent out. */
  class Io {
    var events: seq<Event>

    constructor ()
      ensures events == []
    {
      events := [];
    }
  }

  /** The members of a room as plain values, in room order. */
  function Members(us: seq<User>): (ms: seq<Member>)
    reads set u | u in us
    ensures |ms| == |us|
    decreases |us|
  {
    if us == [] then [] else Members(us[..|us| - 1]) + [us[|us| - 1].Snapshot()]
  }

  class Room {
    const rid: string
    const prefs: Prefs
    var users: seq<User>

    constructor (rid: string, prefs: Prefs)
      ensures this.rid == rid && this.prefs == prefs && users == []
    {
      this.rid := rid;
      this.prefs := prefs;
      users := [];
    }

    predicate IsFull()
      reads this
    {
      |users| >= prefs.room_max
    }

    /** Adds the user at the end of the member list and announces it. */
    method Join(user: User, io: Io)
      modifies this, io
      ensures users == old(users) + [user]
      ensures io.events == old(io.events) + [SocketJoin(user.guid, rid), RoomEmit(rid, "update", Update(user.guid, user.pub))]
    {
      io.events := io.events + [SocketJoin(user.guid, rid)];
      users := users + [user];
      UpdateUser(user, io);
    }

    method UpdateUser(user: User, io: Io)
      modifies io
      ensures io.events == old(io.events) + [RoomEmit(rid, "update", Update(user.guid, user.pub))]
    {
      io.events := io.events + [RoomEmit(rid, "update", Update(user.guid, user.pub))];
    }

    /** Announces the leave, then removes the user's first occurrence (if
        any) and lets the registry drop the room once it is empty. */
    method Leave(user: User, reg: Registry, io: Io)
      requires reg.Valid()
      modifies this, reg, io
      ensures reg.Valid()
      ensures users == SpliceOut(old(users), user)
      ensures io.events == old(io.events) + [RoomEmit(rid, "leave", GuidOnly(user.guid))]
      ensures user !in old(users) || users != [] ==>
        reg.rooms == old(reg.rooms) && reg.roomsPublic == old(reg.roomsPublic)
      ensures user in old(users) && users == [] ==>
        reg.rooms == old(reg.rooms) - {rid} && reg.roomsPublic == SpliceOut(old(reg.roomsPublic), rid)
      // leaving never takes a room over its room_max
      ensures old(reg.WithinCapacity()) ==> reg.WithinCapacity()
    {
      io.events := io.events + [RoomEmit(rid, "leave", GuidOnly(user.guid))];
      var userIndex := IndexOf(users, user);
      if userIndex == -1 {
        return;
      }
      users := users[..userIndex] + users[userIndex + 1..];
      reg.CheckRoomEmpty(this);
    }

    /** `getUsersPublic()`: the forEach that fills a fresh map. */
    method GetUsersPublic() returns (usersPublic: map<string, Public>)
      ensures usersPublic == PublicMap(Members(users))
    {
      usersPublic := map[];
      var i := 0;
      while i < |users|
        invariant 0 <= i <= |users|
        invariant usersPublic == PublicMap(Members(users[..i]))
      {
        assert users[..i + 1][..i] == users[..i];
        usersPublic := usersPublic[users[i].guid := users[i].pub];
        i := i + 1;
      }
      assert users[..i] == users;
    }
  }

  /** The registry of rooms: `rooms` by id and the pool `roomsPublic` of
      public room ids, newest last. */
  class Registry {
    var rooms: map<string, Room>
    var roomsPublic: seq<string>

    constructor ()
      ensures rooms == map[] && roomsPublic == []
      ensures Valid() && WithinCapacity()
    {
      rooms := map[];
      roomsPublic := [];
    }

    /** Each room is stored under its own id. */
    ghost predicate Valid()
      reads this
    {
      forall k :: k in rooms ==> rooms[k].rid == k
    }

    /** No room holds more members than its `room_max`. */
    ghost predicate WithinCapacity()
      reads this, rooms.Values
    {
      forall k :: k in rooms ==> |rooms[k].users| <= rooms[k].prefs.room_max
    }

    /** `isFull()` of every room, by id. */
    function FullMap(): (m: map<string, bool>)
      reads this, rooms.Values
      ensures m.Keys == rooms.Keys
      ensures forall k :: k in rooms ==> m[k] == rooms[k].IsFull()
    {
      map k | k in rooms :: rooms[k].IsFull()
    }

    /** `newRoom`: stores a fresh empty room under `rid`, replacing any room
        already there. */
    method NewRoom(rid: string, prefs: Prefs) returns (room: Room)
      requires Valid()
      modifies this
      ensures Valid()
      ensures fresh(room) && room.rid == rid && room.prefs == prefs && room.users == []
      ensures rooms == old(rooms)[rid := room] && roomsPublic == old(roomsPublic)
    {
      room := new Room(rid, prefs);
      rooms := rooms[rid := room];
    }

    /** The room `login` goes into once resolved: the existing one, or a
        new private room owned by `owner`, or a new public room whose id is
        first pushed onto the pool. */
    method Open(key: string, creation: Creation, settings: Settings, owner: string) returns (room: Room)
      requires Valid()
      requires creation == NoCreate ==> key in rooms
      modifies this
      ensures Valid()
      ensures room.rid == key && key in rooms && room == rooms[key]
      ensures rooms == old(rooms)[key := room]
      ensures roomsPublic == old(roomsPublic) + (if creation == NewPublic then [key] else [])
      ensures creation == NoCreate ==> room == old(rooms[key])
      ensures creation == NewPrivate ==> fresh(room) && room.users == [] && room.prefs == settings.prefsPrivate.(owner := Some(owner))
      ensures creation == NewPublic ==> fresh(room) && room.users == [] && room.prefs == settings.prefsPublic
    {
      match creation {
        case NoCreate =>
          room := rooms[key];
        case NewPrivate =>
          room := NewRoom(key, settings.prefsPrivate.(owner := Some(owner)));
        case NewPublic =>
          roomsPublic := roomsPublic + [key];
          room := NewRoom(key, settings.prefsPublic);
      }
    }

    /** `checkRoomEmpty`: an empty room leaves the pool and the registry
        (by its id); a room with members is left alone. */
    method CheckRoomEmpty(room: Room)
      requires Valid()
      modifies this
      ensures Valid()
      ensures room.users != [] ==> rooms == old(rooms) && roomsPublic == old(roomsPublic)
      ensures room.users == [] ==>
        rooms == old(rooms) - {room.rid} && roomsPublic == SpliceOut(old(roomsPublic), room.rid)
      ensures old(WithinCapacity()) ==> WithinCapacity()
    {
      if |room.users| != 0 {
        return;
      }
      var publicIndex := IndexOf(roomsPublic, room.rid);
      if publicIndex != -1 {
        roomsPublic := roomsPublic[..publicIndex] + roomsPublic[publicIndex + 1..];
      }
      rooms := rooms - {room.rid};
    }
  }

  class User {
    const guid: string
    const ip: string
    var priv: Private
    var pub: Public
    var room: Room?
    /** Whether the `talk`, `command` and `disconnect` listeners are attached. */
    var listening: bool

    /** A new connection. `banned` is `Ban.isBanned(ip)`, `colorPick` the
        random palette index and `flag` the cosmetic location prefix. */
    constructor (guid: string, ip: string, banned: bool, settings: Settings, colorPick: nat, flag: string, io: Io)
      requires colorPick < |settings.bonziColors|
      modifies io
      ensures this.guid == guid && this.ip == ip
      ensures priv == DefaultPrivate
      ensures pub == Public("", settings.bonziColors[colorPick], 0, 0, flag + " " + ip)
      ensures room == null && !listening
      ensures io.events == old(io.events) + (if banned then [BanHandle(guid)] else [])
    {
      this.guid := guid;
      this.ip := ip;
      priv := DefaultPrivate;
      pub := Public("", settings.bonziColors[colorPick], 0, 0, flag + " " + ip);
      room := null;
      listening := false;
      new;
      if banned {
        io.events := io.events + [BanHandle(guid)];
      }
    }

    function Snapshot(): Member
      reads this
    {
      Member(guid, ip, pub)
    }

    /** `login(data)`: resolve the room, name the user, assign pitch and
        speed, join. A refused login leaves the user logged out; one refused
        for its name length happens after the room was chosen (and perhaps
        created), and that room stays in the registry. */
    method Login(data: LoginData, reg: Registry, io: Io, env: Env, settings: Settings,
                 freshGuid: string, randomSpeed: int, randomPitch: int)
      requires reg.Valid()
      modifies this, reg, io, reg.rooms.Values
      ensures reg.Valid()
      // rooms other than the one joined keep their members
      ensures forall r :: r in old(reg.rooms.Values) && r != room ==> r.users == old(r.users)
      // ignored: not an object, or already logged in
      ensures data.NotAnObject? || old(priv.login) ==>
        priv == old(priv) && pub == old(pub) && room == old(room) && listening == old(listening) &&
        reg.rooms == old(reg.rooms) && reg.roomsPublic == old(reg.roomsPublic) && io.events == old(io.events) &&
        (room != null && room in old(reg.rooms.Values) ==> room.users == old(room.users))
      // refused by the room resolution: nameMal or full
      ensures data.LoginObject? && !old(priv.login) ==>
        var res := ResolveRoom(data.room, old(reg.roomsPublic), old(reg.FullMap()), env.sanitize, freshGuid);
        res.Reject? ==>
          io.events == old(io.events) + [SocketEmit(guid, "loginFail", Reason(res.reason))] &&
          priv == old(priv) && pub == old(pub) && room == old(room) && listening == old(listening) &&
          reg.rooms == old(reg.rooms) && reg.roomsPublic == old(reg.roomsPublic) &&
          (room != null && room in old(reg.rooms.Values) ==> room.users == old(room.users))
      // a room was chosen: it is in the registry, created if it was new
      ensures data.LoginObject? && !old(priv.login) ==>
        var res := ResolveRoom(data.room, old(reg.roomsPublic), old(reg.FullMap()), env.sanitize, freshGuid);
        res.Enter? ==>
          room != null && res.key in reg.rooms && room == reg.rooms[res.key] &&
          reg.rooms == old(reg.rooms)[res.key := room] &&
          reg.roomsPublic == old(reg.roomsPublic) + (if res.creation == NewPublic then [res.key] else []) &&
          (res.creation == NoCreate ==> room == old(reg.rooms[res.key])) &&
          (res.creation == NewPrivate ==> fresh(room) && room.prefs == settings.prefsPrivate.(owner := Some(guid))) &&
          (res.creation == NewPublic ==> fresh(room) && room.prefs == settings.prefsPublic) &&
          pub.name == LoginName(data.name, room.prefs, env.sanitize)
      // the name is too long: loginFail, not joined, not logged in
      ensures data.LoginObject? && !old(priv.login) ==>
        var res := ResolveRoom(data.room, old(reg.roomsPublic), old(reg.FullMap()), env.sanitize, freshGuid);
        res.Enter? && |pub.name| > room.prefs.name_limit ==>
          io.events == old(io.events) + [SocketEmit(guid, "loginFail", Reason("nameLength"))] &&
          priv == old(priv) && listening == old(listening) && pub == old(pub).(name := pub.name) &&
          room.users == (if res.creation == NoCreate then old(reg.rooms[res.key].users) else [])
      // success: joined at the end of the room, logged in, told the room state
      ensures data.LoginObject? && !old(priv.login) ==>
        var res := ResolveRoom(data.room, old(reg.roomsPublic), old(reg.FullMap()), env.sanitize, freshGuid);
        res.Enter? && |pub.name| <= room.prefs.name_limit ==>
          priv == old(priv).(login := true) && listening &&
          pub == old(pub).(name := pub.name, speed := Initial(room.prefs.speed, randomSpeed),
                           pitch := Initial(room.prefs.pitch, randomPitch)) &&
          room.users == (if res.creation == NoCreate then old(reg.rooms[res.key].users) else []) + [this] &&
          io.events == old(io.events) + [
            SocketJoin(guid, res.key),
            RoomEmit(res.key, "update", Update(guid, pub)),
            SocketEmit(guid, "updateAll", UpdateAll(PublicMap(Members(room.users)))),
            SocketEmit(guid, "room", RoomInfo(res.rid, room.prefs.owner == Some(guid),
                                              res.rid.Str? && res.rid.s in reg.roomsPublic))]
      // capacity: no login takes a room over its room_max
      ensures old(reg.WithinCapacity()) && settings.prefsPublic.room_max >= 1 && settings.prefsPrivate.room_max >= 1 ==>
        reg.WithinCapacity()
    {
      if data.NotAnObject? || priv.login {
        return;
      }
      var res := ResolveRoom(data.room, reg.roomsPublic, reg.FullMap(), env.sanitize, freshGuid);
      if res.Reject? {
        io.events := io.events + [SocketEmit(guid, "loginFail", Reason(res.reason))];
        return;
      }
      EnterRoom(res.key, res.rid, res.creation, data.name, reg, io, env, settings, randomSpeed, randomPitch);
    }

    /** `login` once the room is resolved: open (or create) it, then admit
        the user. An existing room is entered only when it is not full. */
    method EnterRoom(key: string, rid: Value, creation: Creation, name: Value, reg: Registry, io: Io, env: Env,
                     settings: Settings, randomSpeed: int, randomPitch: int)
      requires reg.Valid()
      requires creation == NoCreate ==> key in reg.rooms && !reg.rooms[key].IsFull()
      modifies this, reg, io, reg.rooms.Values
      ensures reg.Valid()
      ensures forall r :: r in old(reg.rooms.Values) && r != room ==> r.users == old(r.users)
      ensures room != null && key in reg.rooms && room == reg.rooms[key] &&
        reg.rooms == old(reg.rooms)[key := room] &&
        reg.roomsPublic == old(reg.roomsPublic) + (if creation == NewPublic then [key] else []) &&
        (creation == NoCreate ==> room == old(reg.rooms[key])) &&
        (creation == NewPrivate ==> fresh(room) && room.prefs == settings.prefsPrivate.(owner := Some(guid))) &&
        (creation == NewPublic ==> fresh(room) && room.prefs == settings.prefsPublic) &&
        pub.name == LoginName(name, room.prefs, env.sanitize)
      ensures |pub.name| > room.prefs.name_limit ==>
        io.events == old(io.events) + [SocketEmit(guid, "loginFail", Reason("nameLength"))] &&
        priv == old(priv) && listening == old(listening) && pub == old(pub).(name := pub.name) &&
        room.users == (if creation == NoCreate then old(reg.rooms[key].users) else [])
      ensures |pub.name| <= room.prefs.name_limit ==>
        priv == old(priv).(login := true) && listening &&
        pub == old(pub).(name := pub.name, speed := Initial(room.prefs.speed, randomSpeed),
                         pitch := Initial(room.prefs.pitch, randomPitch)) &&
        room.users == (if creation == NoCreate then old(reg.rooms[key].users) else []) + [this] &&
        io.events == old(io.events) + [
          SocketJoin(guid, key),
          RoomEmit(key, "update", Update(guid, pub)),
          SocketEmit(guid, "updateAll", UpdateAll(PublicMap(Members(room.users)))),
          SocketEmit(guid, "room", RoomInfo(rid, room.prefs.owner == Some(guid),
                                            rid.Str? && rid.s in reg.roomsPublic))]
      ensures old(reg.WithinCapacity()) && settings.prefsPublic.room_max >= 1 && settings.prefsPrivate.room_max >= 1 ==>
        reg.WithinCapacity()
    {
      var r := reg.Open(key, creation, settings, guid);
      room := r;
      Admit(r, key, rid, name, reg, io, env, randomSpeed, randomPitch);
      if old(reg.WithinCapacity()) && settings.prefsPublic.room_max >= 1 && settings.prefsPrivate.room_max >= 1 {
        forall k | k in reg.rooms
          ensures |reg.rooms[k].users| <= reg.rooms[k].prefs.room_max
        {
          if k != key {
            assert reg.rooms[k] == old(reg.rooms[k]) && reg.rooms[k].rid == k;
          }
        }
      }
    }

    /** The part of `login` after the room is known: the name check, pitch
        and speed, the join and the messages to the new member. */
    method Admit(r: Room, key: string, rid: Value, name: Value, reg: Registry, io: Io, env: Env,
                 randomSpeed: int, randomPitch: int)
      requires r.rid == key
      modifies this, r, io
      ensures room == old(room) && reg.rooms == old(reg.rooms) && reg.roomsPublic == old(reg.roomsPublic)
      ensures pub.name == LoginName(name, r.prefs, env.sanitize)
      ensures |pub.name| > r.prefs.name_limit ==>
        io.events == old(io.events) + [SocketEmit(guid, "loginFail", Reason("nameLength"))] &&
        priv == old(priv) && listening == old(listening) && pub == old(pub).(name := pub.name) &&
        r.users == old(r.users)
      ensures |pub.name| <= r.prefs.name_limit ==>
        priv == old(priv).(login := true) && listening &&
        pub == old(pub).(name := pub.name, speed := Initial(r.prefs.speed, randomSpeed),
                         pitch := Initial(r.prefs.pitch, randomPitch)) &&
        r.users == old(r.users) + [this] &&
        io.events == old(io.events) + [
          SocketJoin(guid, key),
          RoomEmit(key, "update", Update(guid, pub)),
          SocketEmit(guid, "updateAll", UpdateAll(PublicMap(Members(r.users)))),
          SocketEmit(guid, "room", RoomInfo(rid, r.prefs.owner == Some(guid),
                                            rid.Str? && rid.s in reg.roomsPublic))]
    {
      pub := pub.(name := LoginName(name, r.prefs, env.sanitize));
      if |pub.name| > r.prefs.name_limit {
        io.events := io.events + [SocketEmit(guid, "loginFail", Reason("nameLength"))];
        return;
      }
      pub := pub.(speed := Initial(r.prefs.speed, randomSpeed), pitch := Initial(r.prefs.pitch, randomPitch));
      Welcome(r, key, rid, reg, io);
    }

    /** The end of a successful `login`: join, mark logged in, send the
        member list and the room information to the newcomer. */
    method Welcome(r: Room, key: string, rid: Value, reg: Registry, io: Io)
      requires r.rid == key
      modifies this, r, io
      ensures pub == old(pub) && room == old(room)
      ensures priv == old(priv).(login := true) && listening
      ensures r.users == old(r.users) + [this]
      ensures io.events == old(io.events) + [
        SocketJoin(guid, key),
        RoomEmit(key, "update", Update(guid, pub)),
        SocketEmit(guid, "updateAll", UpdateAll(PublicMap(Members(r.users)))),
        SocketEmit(guid, "room", RoomInfo(rid, r.prefs.owner == Some(guid), rid.Str? && rid.s in reg.roomsPublic))]
    {
      r.Join(this, io);
      priv := priv.(login := true);
      listening := true;
      var usersPublic := r.GetUsersPublic();
      var isPublic := rid.Str? && IndexOf(reg.roomsPublic, rid.s) != -1;
      io.events := io.events + [SocketEmit(guid, "updateAll", UpdateAll(usersPublic)),
                                SocketEmit(guid, "room", RoomInfo(rid, r.prefs.owner == Some(guid), isPublic))];
    }

    /** `talk(data)`: broadcast the (possibly sanitized) text when its
        length is in (0, char_limit]. */
    method Talk(data: TalkData, io: Io, env: Env)
      requires listening && room != null
      modifies io
      ensures var said := Spoken(data, priv.sanitize, env.sanitize, room.prefs.char_limit);
        io.events == old(io.events) + (if said.Some? then [RoomEmit(room.rid, "talk", Said(guid, said.value))] else [])
    {
      var text := if data.NotAnObject? then Str(Placeholder) else data.text;
      if text.Undefined? {
        return;
      }
      var said := if priv.sanitize then Str(env.sanitize(text)) else text;
      if said.Str? && |said.s| <= room.prefs.char_limit && |said.s| > 0 {
        io.events := io.events + [RoomEmit(room.rid, "talk", Said(guid, said.s))];
      }
    }

    /** `command(data)`: the runlevel gate, then the table. A failing
        handler is answered with `commandFail "unknown"` and leaves the
        user's state as it was. */
    method Command(data: CommandData, io: Io, env: Env, settings: Settings, colorPick: nat)
      requires listening && room != null
      requires colorPick < |settings.bonziColors|
      modifies this, io
      ensures room == old(room) && listening == old(listening)
      ensures var d := Decide(data, old(priv.runlevel), room.prefs.runlevel);
        (d.Ignore? ==> priv == old(priv) && pub == old(pub) && io.events == old(io.events)) &&
        (d.Fail? ==> priv == old(priv) && pub == old(pub) &&
                     io.events == old(io.events) + [SocketEmit(guid, "commandFail", Reason(d.reason))]) &&
        (d.Relay? ==> priv == old(priv) && pub == old(pub) &&
                      io.events == old(io.events) + [RoomEmit(room.rid, d.cmd, GuidOnly(guid))])
      ensures var d := Decide(data, old(priv.runlevel), room.prefs.runlevel);
        d.Invoke? ==>
          var e := Apply(d.handler, d.args, old(Snapshot()), old(priv), room.prefs, room.rid,
                         old(Members(room.users)), env, settings, colorPick);
          (e.None? ==> priv == old(priv) && pub == old(pub) &&
                       io.events == old(io.events) + [SocketEmit(guid, "commandFail", Reason("unknown"))]) &&
          (e.Some? ==> priv == e.value.priv && pub == e.value.pub && io.events == old(io.events) + e.value.events)
    {
      var d := Decide(data, priv.runlevel, room.prefs.runlevel);
      match d {
        case Ignore =>
        case Fail(reason) =>
          io.events := io.events + [SocketEmit(guid, "commandFail", Reason(reason))];
        case Relay(cmd) =>
          io.events := io.events + [RoomEmit(room.rid, cmd, GuidOnly(guid))];
        case Invoke(h, args) =>
          var threw := RunHandler(h, args, io, env, settings, colorPick);
          if threw {
            io.events := io.events + [SocketEmit(guid, "commandFail", Reason("unknown"))];
          }
      }
    }

    /** `commandFunc.apply(this, args)`; `threw` when the handler throws. */
    method RunHandler(h: Handler, args: seq<Value>, io: Io, env: Env, settings: Settings, colorPick: nat)
      returns (threw: bool)
      requires room != null
      requires colorPick < |settings.bonziColors|
      modifies this, io
      ensures room == old(room) && listening == old(listening)
      ensures var e := Apply(h, args, old(Snapshot()), old(priv), room.prefs, room.rid,
                             old(Members(room.users)), env, settings, colorPick);
        threw == e.None? &&
        (e.None? ==> priv == old(priv) && pub == old(pub) && io.events == old(io.events)) &&
        (e.Some? ==> priv == e.value.priv && pub == e.value.pub && io.events == old(io.events) + e.value.events)
    {
      if h == Color || h == Pope || h == Name || h == Pitch || h == Speed {
        threw := RunProfile(h, args, io, env, settings, colorPick);
      } else if h == Kick || h == Ban || h == Showip {
        threw := RunModeration(h, args, io, env, settings, colorPick);
      } else {
        threw := RunMessage(h, args, io, env, settings, colorPick);
      }
    }

    /** The handlers that change the public state and announce it. */
    method RunProfile(h: Handler, args: seq<Value>, io: Io, env: Env, settings: Settings, colorPick: nat)
      returns (threw: bool)
      requires room != null
      requires colorPick < |settings.bonziColors|
      requires h == Color || h == Pope || h == Name || h == Pitch || h == Speed
      modifies this, io
      ensures room == old(room) && listening == old(listening)
      ensures var e := Apply(h, args, old(Snapshot()), old(priv), room.prefs, room.rid,
                             old(Members(room.users)), env, settings, colorPick);
        !threw && e.Some? && priv == e.value.priv && pub == e.value.pub && io.events == old(io.events) + e.value.events
    {
      threw := false;
      var arg0 := Arg(args, 0);
      match h {
        case Color =>
          if arg0.Undefined? {
            pub := pub.(color := settings.bonziColors[colorPick]);
            room.UpdateUser(this, io);
          } else if arg0.Str? && arg0.s in settings.bonziColors {
            pub := pub.(color := arg0.s);
            room.UpdateUser(this, io);
          }
        case Pope =>
          pub := pub.(color := PopeColor);
          room.UpdateUser(this, io);
        case Name =>
          var given := env.argsString(args);
          if |given| <= room.prefs.name_limit {
            var name := if given != "" then given else room.prefs.defaultName;
            pub := pub.(name := if priv.sanitize then env.sanitize(Str(name)) else name);
            room.UpdateUser(this, io);
          }
        case Pitch =>
          var parsed := env.parseInt(arg0);
          if parsed.Some? {
            pub := pub.(pitch := Clamp(parsed.value, room.prefs.pitch.min, room.prefs.pitch.max));
            room.UpdateUser(this, io);
          }
        case Speed =>
          var parsed := env.parseInt(arg0);
          if parsed.Some? {
            pub := pub.(speed := Clamp(parsed.value, room.prefs.speed.min, room.prefs.speed.max));
            room.UpdateUser(this, io);
          }
      }
    }

    /** `kick`, `ban` and `showip`; `threw` when the handler throws. */
    method RunModeration(h: Handler, args: seq<Value>, io: Io, env: Env, settings: Settings, colorPick: nat)
      returns (threw: bool)
      requires room != null
      requires colorPick < |settings.bonziColors|
      requires h == Kick || h == Ban || h == Showip
      modifies io
      ensures room == old(room) && listening == old(listening)
      ensures var e := Apply(h, args, old(Snapshot()), old(priv), room.prefs, room.rid,
                             old(Members(room.users)), env, settings, colorPick);
        threw == e.None? &&
        (e.None? ==> priv == old(priv) && pub == old(pub) && io.events == old(io.events)) &&
        (e.Some? ==> priv == e.value.priv && pub == e.value.pub && io.events == old(io.events) + e.value.events)
    {
      var arg0 := Arg(args, 0);
      match h {
        case Kick =>
          var out := RunKick(Snapshot(), room.rid, Members(room.users), arg0);
          threw := Emit(out, io);
        case Ban =>
          var out := RunBan(Snapshot(), room.rid, Members(room.users), settings.banLength,
                            arg0, Arg(args, 1), Arg(args, 2), Arg(args, 3));
          threw := Emit(out, io);
        case Showip =>
          var out := RunShowip(Snapshot(), Members(room.users), arg0);
          threw := Emit(out, io);
      }
    }

    /** The handlers that set a private flag or only emit. */
    method RunMessage(h: Handler, args: seq<Value>, io: Io, env: Env, settings: Settings, colorPick: nat)
      returns (threw: bool)
      requires room != null
      requires colorPick < |settings.bonziColors|
      requires !(h == Color || h == Pope || h == Name || h == Pitch || h == Speed || h == Kick || h == Ban || h == Showip)
      modifies this, io
      ensures room == old(room) && listening == old(listening)
      ensures var e := Apply(h, args, old(Snapshot()), old(priv), room.prefs, room.rid,
                             old(Members(room.users)), env, settings, colorPick);
        !threw && e.Some? && priv == e.value.priv && pub == e.value.pub && io.events == old(io.events) + e.value.events
    {
      threw := false;
      var arg0 := Arg(args, 0);
      match h {
        case Godmode =>
          if LooseEquals(arg0, room.prefs.godword) {
            priv := priv.(runlevel := GodRunlevel);
          }
        case Sanitize =>
          priv := priv.(sanitize := SanitizeSetting(env.argsString(args)));
        case Joke =>
          io.events := io.events + [RoomEmit(room.rid, "joke", GuidOnly(guid))];
        case Fact =>
          io.events := io.events + [RoomEmit(room.rid, "fact", GuidOnly(guid))];
        case Youtube =>
          var vid := if priv.sanitize then Str(env.sanitize(arg0)) else arg0;
          io.events := io.events + [RoomEmit(room.rid, "youtube", Media(guid, vid))];
        case Image =>
          var vid := if priv.sanitize then Str(env.sanitize(arg0)) else arg0;
          io.events := io.events + [RoomEmit(room.rid, "image", Media(guid, vid))];
        case Video =>
          var vid := if priv.sanitize then Str(env.sanitize(arg0)) else arg0;
          io.events := io.events + [RoomEmit(room.rid, "video", Media(guid, vid))];
        case Backflip =>
          io.events := io.events + [RoomEmit(room.rid, "backflip", Swag(guid, arg0 == Str("swag")))];
        case Asshole =>
          io.events := io.events + [RoomEmit(room.rid, "asshole", Aimed(guid, env.sanitize(Str(env.argsString(args)))))];
        case Owo =>
          io.events := io.events + [RoomEmit(room.rid, "owo", Aimed(guid, env.sanitize(Str(env.argsString(args)))))];
        case Vaporwave =>
          io.events := io.events + [SocketEmit(guid, "vaporwave", NoData)];
          io.events := io.events + [RoomEmit(room.rid, "youtube", Media(guid, Str(VaporwaveVideo)))];
        case Unvaporwave =>
          io.events := io.events + [SocketEmit(guid, "unvaporwave", NoData)];
      }
    }

    /** Appends what a moderation handler emitted; `threw` when it threw. */
    method Emit(out: Option<seq<Event>>, io: Io) returns (threw: bool)
      modifies io
      ensures threw == out.None? && io.events == old(io.events) + (if out.Some? then out.value else [])
    {
      threw := out.None?;
      if out.Some? {
        io.events := io.events + out.value;
      }
    }

    /** `disconnect()`, the room-detach part: tell every other socket, drop
        the listeners, leave the room (which announces the leave again). */
    method Disconnect(reg: Registry, io: Io)
      requires listening && room != null && reg.Valid()
      modifies this, reg, io, room
      ensures reg.Valid()
      ensures !listening && room == old(room) && priv == old(priv) && pub == old(pub)
      ensures room.users == SpliceOut(old(room.users), this)
      ensures io.events == old(io.events) + [BroadcastEmit(guid, "leave", GuidOnly(guid)), RoomEmit(room.rid, "leave", GuidOnly(guid))]
      ensures this !in old(room.users) || room.users != [] ==>
        reg.rooms == old(reg.rooms) && reg.roomsPublic == old(reg.roomsPublic)
      ensures this in old(room.users) && room.users == [] ==>
        reg.rooms == old(reg.rooms) - {room.rid} && reg.roomsPublic == SpliceOut(old(reg.roomsPublic), room.rid)
      ensures old(reg.WithinCapacity()) ==> reg.WithinCapacity()
    {
      io.events := io.events + [BroadcastEmit(guid, "leave", GuidOnly(guid))];
      listening := false;
      room.Leave(this, reg, io);
    }
  }
}
