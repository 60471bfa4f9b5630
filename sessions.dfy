/**
 * The decisions `login` and `talk` take before touching any state: which
 * room a login lands in (or why it is refused), the name a user gets, the
 * pitch and speed a room assigns, and whether a `talk` is broadcast.
 */
module Sessions {
  import opened JsValues
  import opened Records

  /** The payload of a `login` event. `room` is `None` when absent; the
      `name` may be any value, since it goes through sanitize-html. */
  datatype LoginData = NotAnObject | LoginObject(room: Option<string>, name: Value)

  /** Whether `login` goes down the private-room path (`roomSpecified`). */
  predicate RoomSpecified(room: Option<string>)
  {
    room.Some? && room.value != ""
  }

  /** `rooms[roomsPublic[Math.max(roomsPublic.length - 1, 0)]]` looks up this
      key: the last pool entry, or, for an empty pool, `rooms[undefined]`,
      which JavaScript reads as the key "undefined". */
  function PoolKey(pool: seq<string>): string
  {
    if |pool| > 0 then pool[|pool| - 1] else "undefined"
  }

  /** What the `rid` variable holds for the pool head. */
  function PoolRid(pool: seq<string>): Value
  {
    if |pool| > 0 then Str(pool[|pool| - 1]) else Undefined
  }

  datatype Creation = NoCreate | NewPrivate | NewPublic

  /** Where a login goes: refused with a `loginFail` reason, or into the room
      at `key` (created first, unless `NoCreate`); `rid` is what the `room`
      event reports. */
  datatype Resolution = Reject(reason: string) | Enter(key: string, rid: Value, creation: Creation)

  /** Room resolution of `login`. `full` maps each existing room id to
      `isFull()`; `freshGuid` is what `Utils.guidGen()` would return. */
  function ResolveRoom(room: Option<string>, pool: seq<string>, full: map<string, bool>,
                       sanitize: Value -> string, freshGuid: string): (r: Resolution)
    // an existing room is entered only when it is not full
    ensures r.Enter? && r.creation == NoCreate ==> r.key in full && !full[r.key]
    // private path
    ensures RoomSpecified(room) ==>
      (r == Reject("nameMal") <==> sanitize(Str(room.value)) != room.value)
    ensures RoomSpecified(room) && sanitize(Str(room.value)) == room.value ==>
      (room.value !in full ==> r == Enter(room.value, Str(room.value), NewPrivate)) &&
      (room.value in full && full[room.value] ==> r == Reject("full")) &&
      (room.value in full && !full[room.value] ==> r == Enter(room.value, Str(room.value), NoCreate))
    // public path: never refused; a missing or full pool head makes a fresh room
    ensures !RoomSpecified(room) ==> r.Enter? && r.creation != NewPrivate
    ensures !RoomSpecified(room) ==>
      ((PoolKey(pool) !in full || full[PoolKey(pool)]) <==> r == Enter(freshGuid, Str(freshGuid), NewPublic))
    // a usable pool head is the room entered
    ensures !RoomSpecified(room) && PoolKey(pool) in full && !full[PoolKey(pool)] ==>
      r == Enter(PoolKey(pool), PoolRid(pool), NoCreate)
    ensures r.Reject? ==> r.reason == "nameMal" || r.reason == "full"
  {
    if RoomSpecified(room) then
      var rid := room.value;
      if sanitize(Str(rid)) != rid then Reject("nameMal")
      else if rid !in full then Enter(rid, Str(rid), NewPrivate)
      else if full[rid] then Reject("full")
      else Enter(rid, Str(rid), NoCreate)
    else
      var key := PoolKey(pool);
      if key !in full || full[key] then Enter(freshGuid, Str(freshGuid), NewPublic)
      else Enter(key, PoolRid(pool), NoCreate)
  }

  /** As written, an empty public pool resolves to whatever room is stored
      under the id "undefined" (a private room a client may have created),
      and the `room` event then reports `undefined`. */
  lemma EmptyPoolUsesUndefinedKey(full: map<string, bool>, sanitize: Value -> string, freshGuid: string)
    requires "undefined" in full && !full["undefined"]
    ensures ResolveRoom(None, [], full, sanitize, freshGuid) == Enter("undefined", Undefined, NoCreate)
  {
  }

  /** Logins without a room share a public room. When the pool head is
      missing or full, a login makes the fresh room `freshGuid` and pushes it
      onto the pool; the next such login enters that room while it is not
      full, and once it is full the login after that makes another one. */
  lemma NextLoginJoinsNewPublicRoom(pool: seq<string>, full: map<string, bool>, sanitize: Value -> string,
                                    freshGuid: string, nextGuid: string)
    requires PoolKey(pool) !in full || full[PoolKey(pool)]
    ensures ResolveRoom(None, pool, full, sanitize, freshGuid) == Enter(freshGuid, Str(freshGuid), NewPublic)
    ensures ResolveRoom(None, pool + [freshGuid], full[freshGuid := false], sanitize, nextGuid) ==
      Enter(freshGuid, Str(freshGuid), NoCreate)
    ensures ResolveRoom(None, pool + [freshGuid], full[freshGuid := true], sanitize, nextGuid) ==
      Enter(nextGuid, Str(nextGuid), NewPublic)
  {
    assert PoolKey(pool + [freshGuid]) == freshGuid;
  }

  /** `sanitize(data.name) || this.room.prefs.defaultName`. */
  function LoginName(name: Value, prefs: Prefs, sanitize: Value -> string): (r: string)
    ensures r == "" ==> prefs.defaultName == ""
    ensures sanitize(name) != "" ==> r == sanitize(name)
    ensures sanitize(name) == "" ==> r == prefs.defaultName
  {
    var s := sanitize(name);
    if s != "" then s else prefs.defaultName
  }

  /** `prefs.<x>.default == "random" ? Utils.randomRangeInt(min, max) : default`;
      `random` is the value the utility returned. */
  function Initial(b: Bounds, random: int): int
  {
    match b.default
    case Random => random
    case Fixed(v) => v
  }

  /** A fixed policy gives the configured value; "random" gives what the
      utility drew, so it stays within the bounds whenever the draw does. */
  lemma InitialFollowsPolicy(b: Bounds, random: int)
    ensures b.default.Fixed? ==> Initial(b, random) == b.default.value
    ensures b.default.Random? ==> Initial(b, random) == random
    ensures b.default.Random? && b.min <= random <= b.max ==> b.min <= Initial(b, random) <= b.max
  {
  }

  /** The payload of a `talk` event. */
  datatype TalkData = NotAnObject | TalkObject(text: Value)

  const Placeholder := "HEY EVERYONE LOOK AT ME I'M TRYING TO SCREW WITH THE SERVER LMAO"

  /** The text a `talk` broadcasts, if any. A payload that is not an object
      is replaced by a placeholder text first. */
  function Spoken(data: TalkData, sanitizeOn: bool, sanitize: Value -> string, charLimit: int): (r: Option<string>)
    ensures r.Some? ==> 0 < |r.value| <= charLimit
    ensures data.TalkObject? && data.text.Undefined? ==> r.None?
    ensures sanitizeOn && !(data.TalkObject? && data.text.Undefined?) ==>
      var t := if data.NotAnObject? then Str(Placeholder) else data.text;
      (r.Some? <==> 0 < |sanitize(t)| <= charLimit) && (r.Some? ==> r.value == sanitize(t))
    ensures !sanitizeOn && data.TalkObject? ==>
      (r.Some? <==> data.text.Str? && 0 < |data.text.s| <= charLimit) && (r.Some? ==> Str(r.value) == data.text)
    // a payload that is not an object says the placeholder, sanitized when on
    ensures !sanitizeOn && data.NotAnObject? ==>
      (r.Some? <==> |Placeholder| <= charLimit) && (r.Some? ==> r.value == Placeholder)
  {
    var t := if data.NotAnObject? then Str(Placeholder) else data.text;
    if t.Undefined? then None
    else
      var text := if sanitizeOn then Str(sanitize(t)) else t;
      if text.Str? && |text.s| <= charLimit && |text.s| > 0 then Some(text.s) else None
  }

  /** The length filter of `talk` is the half-open interval (0, char_limit]:
      a text exactly at the limit is said, one character more is dropped. */
  lemma TalkAtLimit(s: string, c: char, env: Env)
    requires s != ""
    ensures Spoken(TalkObject(Str(s)), false, env.sanitize, |s|) == Some(s)
    ensures Spoken(TalkObject(Str(s + [c])), false, env.sanitize, |s|) == None
  {
  }

  /** `getUsersPublic()`: guid to public state, in room order, so that a
      later member with the same guid overwrites an earlier one. */
  function PublicMap(ms: seq<Member>): (r: map<string, Public>)
    ensures ms != [] ==> ms[|ms| - 1].guid in r && r[ms[|ms| - 1].guid] == ms[|ms| - 1].pub
    decreases |ms|
  {
    if ms == [] then map[]
    else PublicMap(ms[..|ms| - 1])[ms[|ms| - 1].guid := ms[|ms| - 1].pub]
  }

  /** The snapshot has one entry per guid in the room, holding the public
      state of the last member with that guid. */
  lemma {:induction false} PublicMapContents(ms: seq<Member>)
    ensures forall g :: g in PublicMap(ms) <==> exists i :: 0 <= i < |ms| && ms[i].guid == g
    ensures forall i :: 0 <= i < |ms| && (forall j :: i < j < |ms| ==> ms[j].guid != ms[i].guid) ==>
      PublicMap(ms)[ms[i].guid] == ms[i].pub
    decreases |ms|
  {
    if ms != [] {
      var front := ms[..|ms| - 1];
      var last := ms[|ms| - 1];
      PublicMapContents(front);
      forall g ensures g in PublicMap(ms) <==> exists i :: 0 <= i < |ms| && ms[i].guid == g {
        if g in PublicMap(front) {
          var i :| 0 <= i < |front| && front[i].guid == g;
          assert ms[i].guid == g;
        }
        if exists i :: 0 <= i < |ms| && ms[i].guid == g {
          var i :| 0 <= i < |ms| && ms[i].guid == g;
          if i < |ms| - 1 {
            assert front[i].guid == g;
          }
        }
      }
      forall i | 0 <= i < |ms| && (forall j :: i < j < |ms| ==> ms[j].guid != ms[i].guid)
        ensures PublicMap(ms)[ms[i].guid] == ms[i].pub
      {
        if i < |ms| - 1 {
          assert front[i] == ms[i];
          assert forall j :: i < j < |front| ==> front[j] == ms[j];
        }
      }
    }
  }
}
