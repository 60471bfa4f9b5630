/**
 * Plain data of the server: room preferences, the static settings, the
 * per-user private and public state, and the outside functions the server
 * calls but does not define (sanitize-html, `Utils.argsString`, `parseInt`).
 */
module Records {
  import opened JsValues

  /** How a room picks a newcomer's pitch or speed: a fixed value, or
      `Utils.randomRangeInt(min, max)` when the preference is `"random"`. */
  datatype Policy = Random | Fixed(value: int)

  datatype Bounds = Bounds(min: int, max: int, default: Policy)

  /** A room's preferences (`settings.prefs.public`, or a copy of
      `settings.prefs.private` with `owner` set). `godword` is `Undefined`
      when the template has none. */
  datatype Prefs = Prefs(
    room_max: int,
    name_limit: int,
    char_limit: int,
    defaultName: string,
    pitch: Bounds,
    speed: Bounds,
    runlevel: map<string, int>,
    owner: Option<string>,
    godword: Value)

  /** The parts of `settings.json` that the server reads. */
  datatype Settings = Settings(
    bonziColors: seq<string>,
    banLength: int,
    prefsPublic: Prefs,
    prefsPrivate: Prefs)

  /** Functions of other modules: `sanitize` is sanitize-html applied to any
      value; `argsString` is `Utils.argsString(arguments)`; `parseInt` answers
      `None` for `NaN`. */
  datatype Env = Env(
    sanitize: Value -> string,
    argsString: seq<Value> -> string,
    parseInt: Value -> Option<int>)

  /** `this.private`: never broadcast. */
  datatype Private = Private(login: bool, sanitize: bool, runlevel: int)

  /** `this.public`: what the room sees of a user. Before login the source
      leaves `name`, `pitch` and `speed` unset; here they start at "" and 0. */
  datatype Public = Public(name: string, color: string, pitch: int, speed: int, location: string)

  /** What the command handlers read of one member of the room: the guid,
      the remote address `getIp()` and the public state. */
  datatype Member = Member(guid: string, ip: string, pub: Public)

  const DefaultPrivate := Private(false, true, 0)

  /** The colour that authorizes `kick`, `ban` and `showip`. */
  const PopeColor := "pope"

  /** The runlevel `godmode` grants. */
  const GodRunlevel := 3
}
