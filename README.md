# Chat-room server core (`meat.js`) in Dafny

This project models the room and user logic of the chat server in
`meat.js`:

- **Registry.** The registry of rooms (`rooms`, keyed by id) and the pool of
  public room ids (`roomsPublic`, newest last).
- **Rooms.** Rooms and their member lists: `isFull`, `join`, `leave`,
  `updateUser`, `getUsersPublic`, `newRoom` and `checkRoomEmpty`.
- **Users.** Users with their private state (`login`, `sanitize`, `runlevel`) and
  public state (`name`, `color`, `pitch`, `speed`, `location`), and their
  socket handlers:
  - `login`: room resolution, the name check, pitch and speed, the join;
  - `talk`: the length filter;
  - `command`: the runlevel gate, the `userCommands` table and its passthrough
    entries, `commandFail`;
  - the room-detach part of `disconnect`.
- **Handlers.** Every handler of `userCommands`, including the moderation
  commands `kick`, `ban` and `showip`, which only a "pope" may use, and the
  conversion of a ban length into minutes.

## How the model is built

- **Modules.**
  - `JsValues`: the slice of JavaScript it needs. This is JSON values, truthiness,
    `String(v)`, `==`, ASCII `toLowerCase`, `indexOf` and a one-element
    `splice`.
  - `Records`: preferences, settings, private/public state.
  - `Events`: the effects sent out.
  - `Commands`: the dispatcher and the handlers as functions over values.
  - `Numbers`: the `pitch` and `speed` handlers as written, over JavaScript
    numbers (see "## Findings").
  - `Sessions`: the decisions `login` and `talk` take.
  - `Server`: the classes `Room`, `Registry` and `User`. Their methods update
    fields in place, as the JavaScript does.
- **Outbound effects.** Nothing is sent anywhere. Every effect is appended to
  the log `Io.events`:
  - `io.to(rid).emit`, `socket.emit` and `socket.broadcast.emit`;
  - the socket joining a room;
  - the calls `Ban.handleBan`, `Ban.kick` and `Ban.addBan`.
- **Outside functions.**
  - sanitize-html, `Utils.argsString` and `parseInt` are fields of `Env`.
  - `Utils.guidGen`, `Utils.randomRangeInt`, `Ban.isBanned` and the
    `Math.random` picks enter as method parameters.
- **Stateful methods are proved against functions.**
  - `Command` and its handlers are proved against `Decide` and `Apply`.
  - The `forEach` loops of `kick`, `ban` and `showip` are the loop method
    `FindMatches`, proved against `Matches`.
  - `getUsersPublic` is proved against `PublicMap`.
- **Room resolution.** `Login` chooses its room through `ResolveRoom`, whose
  contract is the one that says a full room is never entered.

Behaviours kept exactly as the code has them:

- A login refused for its name length comes after the room was chosen, and
  possibly created; an empty room created that way stays in the registry.
- `kick` acts on every member whose name matches.
- `ban auto` takes the address of the last match.
- `disconnect` announces `leave` twice: once to every other socket, and once
  more inside `Room.leave`.
- With an empty public pool, `rooms[roomsPublic[0]]` reads the key
  "undefined". A room a client created under that id is then joined as the
  "public" room, and the `room` event reports `undefined`.
- A `command` payload of `null` is an object whose `list` cannot be read. It
  ends in `commandFail "unknown"`, which is `CommandObject(None)` here.

## Model

| member | source | states |
|---|---|---|
| JsValues.IndexOf | meat.js:107 | `indexOf` answers -1 exactly when the element is absent; otherwise the position of its first occurrence |
| JsValues.SpliceOutRemovesFirst | meat.js:107-110 | removing a user splices out only the first occurrence: nothing changes for a non-member; otherwise the length drops by one, the multiset loses one copy, and the order of the rest is kept |
| JsValues.Lower | meat.js:617 | `toLowerCase` keeps the length, maps each character, and leaves no upper-case ASCII letter |
| JsValues.DigitsValueOfNatToString | meat.js:325-330 | `parseInt` of the decimal digits of `n` gives back `n` (the digits a ban length carries) |
| Commands.CommandWord | meat.js:616-617 | a command name exists exactly when `list` is an array whose first element is a string; it is that string lower-cased |
| Commands.Decide | meat.js:609-648 | a non-object payload is ignored; `commandFail "runlevel"` iff the name is readable and the runlevel is below `prefs.runlevel[cmd] \|\| 0`; past the gate a passthrough entry is relayed by name and a handler entry is run with `list.slice(1)`, never refused; `commandFail "unknown"` iff the name is unreadable or, past the gate, absent from the table |
| Commands.DecideIgnoresCase | meat.js:617-626 | command names are matched case-insensitively, for the gate and the table alike |
| Commands.Clamp | meat.js:255-284 | the clamped value lies in `[min, max]` when `min <= max`; an in-range value is kept, one below is raised to `min`, one above lowered to `max` |
| Commands.SanitizeSettingIgnoresCase | meat.js:158-160 | "OFF" and "off" have the same effect |
| Commands.StringBanMinutes | meat.js:320-334 | "perm" is 525600 minutes; `<digits>h`, `<digits>d` and `<digits>w` are the count times 60, 1440 and 10080 |
| Commands.BanMinutes | meat.js:317-334 | a falsy length becomes `settings.banLength`; a string is converted; any other value passes through; the result is never a string |
| Commands.BanMinutesOfUnits | meat.js:325-330 | "5h" is 300 minutes and so on for every count: the unit conversions read the count back exactly |
| Commands.BanMinutesFallback | meat.js:331-333 | any other non-empty string falls back to `settings.banLength` |
| Commands.Matches | meat.js:292-293 | the members matched are exactly those whose lower-cased name equals the lower-cased username, never more than the room holds |
| Commands.MatchesLast | meat.js:341-346 | the matches keep room order: the last one is the last member of the room whose name matches, the member whose address `ban auto` keeps |
| Commands.FindMatches | meat.js:291-301 | the `forEach` collects exactly `Matches` in room order; it throws iff the username is not a string and the room is not empty |
| Commands.KickEvents | meat.js:292-301 | two effects per match (its kick and the room alert), as `KickEventsAt` gives index by index |
| Commands.KickEventsAt | meat.js:292-301 | per match, in room order: `Ban.kick` of its address with "Kicked by <kicker>", then the room alert "<username> has been kicked by <kicker>" |
| Commands.KickEventsContents | meat.js:292-301 | every match's address is kicked, every kick is of a match, and nothing but kicks and room alerts is emitted |
| Commands.KickOutcome | meat.js:285-308 | no effect without the pope colour or a truthy username; throws iff the username is not a string and the room is not empty; with matches the effects are exactly a kick and an alert per match in room order; no match gives only the private "Could not find user" alert |
| Commands.KickTargets | meat.js:292-296 | a kick only ever targets members whose name matches, and every such member is kicked in the pope's name |
| Commands.RunKick | meat.js:285-308 | the handler's loop produces exactly `KickOutcome` |
| Commands.ShowipEvents | meat.js:369-377 | one private alert per match, carrying that member's address and location |
| Commands.ShowipOutcome | meat.js:362-384 | no effect without the pope colour or a truthy username; everything goes to the caller's own socket; with matches, one alert per match revealing its address and location; with none, only the "Could not find user" alert |
| Commands.RunShowip | meat.js:362-384 | the handler's loop produces exactly `ShowipOutcome` |
| Commands.BanOutcome | meat.js:309-361 | no effect without the pope colour, a truthy ip and a truthy username (the effects with them are stated by `BanOutcomeProperties`) |
| Commands.AutoBanOutcome | meat.js:340-354 | the "auto" lookup throws iff the username is not a string and the room is not empty (its effects are stated by `BanOutcomeProperties`) |
| Commands.BanOutcomeProperties | meat.js:309-361 | no effect without the pope colour, a truthy ip and a truthy username; throws only for "auto" with a non-string name in a non-empty room; a given address is banned with the converted minutes and the reason (or "No reason provided"), then the room is alerted; "auto" with matches bans the last match's address the same way; "auto" with no match emits only the private alert and never bans |
| Commands.RunBan | meat.js:309-361 | the handler produces exactly `BanOutcome` |
| Commands.RunAutoBan | meat.js:340-354 | the "auto" loop keeps the last match's address, or stops with the private alert when nothing matches |
| Commands.Apply | meat.js:148-385 | only `kick`, `ban` and `showip` can throw; no handler changes `login`; only `godmode` (runlevel 3 iff the word `==` godword) and `sanitize` (off iff the lower-cased joined arguments are a term of the list) change private state; moderation needs the pope colour and changes no state; unparsable pitch/speed changes nothing, else it is clamped; `color` with no argument takes the drawn palette colour, with a palette colour takes it, with anything else changes nothing; `pope` sets "pope"; `name` over `name_limit` changes nothing, else it sets `argsString \|\| defaultName`, sanitized when on; each change by `color`, `pope` and `name` is followed by `update` |
| Commands.ApplyPublicState | meat.js:148-385 | only `color`, `pope`, `name`, `pitch` and `speed` change the public state; a changed pitch or speed is followed by `update`; the pope colour is gained only through `pope`, or through `color` when the palette holds it |
| Commands.ApplyEmits | meat.js:148-245 | `godmode` and `sanitize` emit nothing; `joke`, `fact`, `youtube`, `image`, `video`, `backflip`, `asshole`, `owo`, `vaporwave` and `unvaporwave` each send exactly their event(s) with the sender's guid (the video id sanitized when on, the target always sanitized) and change no state |
| Commands.ApplyModeration | meat.js:285-384 | `kick`, `ban` and `showip` have exactly the effects of `KickOutcome`, `BanOutcome` and `ShowipOutcome`, throw exactly where those do, and change no state |
| Sessions.ResolveRoom | meat.js:485-536 | an existing room is entered only when not full; a named room is refused with "nameMal" iff sanitizing changes its id, created with this user as owner if missing, refused with "full" if full, entered otherwise; without a name the pool head is entered when it exists and is not full, and a fresh public room is made otherwise |
| Sessions.EmptyPoolUsesUndefinedKey | meat.js:491-492 | an empty pool resolves to the room stored under "undefined", reported as `undefined` |
| Sessions.NextLoginJoinsNewPublicRoom | meat.js:491-538 | a room-less login facing a missing or full pool head makes a fresh public room; once its id is on the pool, the next room-less login enters it while it is not full, and makes another fresh room once it is full |
| Sessions.LoginName | meat.js:541 | the sanitized name when it is not empty, else the room's default name |
| Sessions.InitialFollowsPolicy | meat.js:548-560 | spells out the definition of `Initial` (which `Server.User.Admit` uses for pitch and speed): a fixed policy gives its value; "random" gives what `Utils.randomRangeInt` returned, within the bounds whenever that draw is |
| Sessions.Spoken | meat.js:585-607 | a text is said only when its length is in (0, char_limit]; an undefined text is never said; with sanitizing on it is the sanitized text; with it off, a string text is said as is and a non-object payload says the placeholder |
| Sessions.TalkAtLimit | meat.js:601 | a text exactly at the limit is said; one more character is dropped |
| Sessions.PublicMap | meat.js:128-134 | the last member's guid is a key holding its public state (the full statement is `PublicMapContents`) |
| Sessions.PublicMapContents | meat.js:128-134 | the snapshot has one key per guid in the room, holding the public state of the last member with that guid |
| Numbers.StoredAsWritten | meat.js:255-284 | the `pitch`/`speed` handler as written returns without a change exactly when the first `parseInt` is `NaN` |
| Numbers.ReparseBelowExponent | meat.js:262 | the second `parseInt` gives back an integer below 10^21 in magnitude |
| Numbers.StoredAsWrittenBelowExponent | meat.js:255-284 | below 10^21 in magnitude, the handler as written stores exactly `Clamp` of the first parse |
| Numbers.StoredAsWrittenLeavesBounds | meat.js:255-284 | as written, an infinite first parse stores `NaN` whatever the bounds, and 10^21 with bounds [0, 100] stores 1 where the clamp is 100 |
| Server.Room.constructor | meat.js:67-71 | a new room has the given id and preferences and no members |
| Server.Room.Join | meat.js:93-98 | the user is appended once, at the end, earlier members and their order unchanged; the socket joins the room and the room gets an `update` |
| Server.Room.UpdateUser | meat.js:121-126 | the room gets the user's current public state |
| Server.Room.Leave | meat.js:100-119 | `leave` is announced first; a non-member changes nothing else; otherwise its first occurrence is removed, and the room leaves the registry and the pool exactly when it became empty; capacity is kept |
| Server.Room.GetUsersPublic | meat.js:128-134 | the loop builds exactly `PublicMap` of the members |
| Server.Registry.constructor | meat.js:8-9 | the registry starts with no rooms and an empty public pool, and is `Valid` and within capacity |
| Server.Registry.FullMap | meat.js:89-91 | per room id, whether `|users| >= room_max` |
| Server.Registry.NewRoom | meat.js:141-146 | a fresh empty room is stored under its id, replacing any room there; the pool is untouched |
| Server.Registry.Open | meat.js:509-535 | login's registry step: the existing room, or a new private room owned by the user, or a new public room whose id is first pushed onto the pool |
| Server.Registry.CheckRoomEmpty | meat.js:50-64 | a room with members is left alone; an empty one is deleted by id and its id spliced out of the pool |
| Server.User.constructor | meat.js:389-421 | a new user is logged out with sanitizing on and runlevel 0, has a palette colour and location "flag ip", and a banned address triggers `Ban.handleBan` |
| Server.User.Login | meat.js:476-583 | a non-object payload or a logged-in user changes nothing; "nameMal"/"full" refusals change nothing but the `loginFail`; a name over `name_limit` gives "nameLength" without joining; success joins at the end, logs in, and sends `updateAll` and `room`; registry validity is kept, and room capacity is kept when both room templates allow at least one member |
| Server.User.EnterRoom | meat.js:509-563 | the chosen room is the one stored under the resolved id; other rooms keep their members; an existing room is entered only when not full, so capacity is kept when both room templates allow at least one member |
| Server.User.Admit | meat.js:541-583 | the name check before anything is joined, then pitch and speed from the room's preferences |
| Server.User.Welcome | meat.js:562-578 | join, logged in, then the member snapshot and the room information with `isOwner`/`isPublic` |
| Server.User.Talk | meat.js:585-607 | the room gets a `talk` exactly when `Spoken` says something |
| Server.User.Command | meat.js:609-648 | the effects and the new state are those of `Decide`, and for a handler those of `Apply`; a throwing handler leaves the state unchanged and emits `commandFail "unknown"` |
| Server.User.RunHandler | meat.js:148-385 | running a handler in place yields exactly `Apply`'s new state and effects, and reports whether it threw |
| Server.User.RunProfile | meat.js:204-284 | `color`, `pope`, `name`, `pitch` and `speed` in place: never throw, and give exactly `Apply`'s new state and effects |
| Server.User.RunModeration | meat.js:285-384 | `kick`, `ban` and `showip` in place: only the log changes, by exactly `Apply`'s effects, and `threw` exactly when `Apply` throws |
| Server.User.RunMessage | meat.js:148-245 | `godmode`, `sanitize` and the media handlers in place: never throw, and give exactly `Apply`'s new state and effects |
| Server.User.Disconnect | meat.js:650-695 | `leave` to every other socket, then `Room.leave` (a second `leave`); the listeners are gone; the registry changes only when the room became empty; capacity is kept |

## Left out

- The reconnect middleware, the `reconnect*` listeners and the `_lastRoom`/`_wasLoggedIn` bookkeeping are transport plumbing and are not modelled. The same goes for `io.on('connection')` and the attaching and removing of listeners, which is reduced to the flag `User.listening`.
- Logging (`log.info`, `log.access`) has no effect on state and is not modelled.
- `Ban.isBanned`, `Ban.handleBan`, `Ban.kick` and `Ban.addBan` are other modules. The first is a parameter; the others appear only as recorded calls.
- sanitize-html, `Utils.argsString`, `Utils.guidGen`, `Utils.randomRangeInt` and `parseInt` are other modules. They are arbitrary functions or parameters, and nothing is assumed about them, idempotence included.
- The random numbers in the `joke` and `fact` payloads are not carried. The random palette index and the random location flag are parameters.
- `getIp` and `getPort`: the address is a constructor parameter; the port is only logged.
- `Room.deconstruct` is only reached for an empty room, where its loop does nothing. `usersAll` is never used.
- A `login` or `talk` payload of `null` passes the `typeof` test and then throws inside the listener. It has no counterpart here.
- Sessions.ResolveRoom: a non-string `room` value in a login is not modelled.
- Nested objects and arrays as argument values, a `list` that is not an array, and fractional numbers are not modelled. Numbers are integers.
- Room ids and command names that hit `Object.prototype` properties (such as "constructor") are not modelled. Maps here hold only what was stored.
- JsValues.Lower: lower-cases ASCII letters only.
- Sessions.Spoken: the `char_limit` check counts characters, not the UTF-16 code units of JavaScript's `length`.
- Server.User.Login: the `name_limit` check counts characters, not UTF-16 code units.
- Commands.Apply: the `name_limit` check of `name` counts characters, not UTF-16 code units.
- Commands.Apply: `pitch` and `speed` clamp the first `parseInt` and take the second one (meat.js:262, 277) as the identity. For an argument of 10^21 or more the source stores `NaN` or a single digit instead; `Numbers` models that, and "## Findings" records it.
- Numbers.Reparse: from 10^21 on it reads the first digit of the exact value; when the shortest round-trip form of a double rounds up to the next power of ten, JavaScript reads a 1 there instead.
- JsValues.LooseEquals: covers `undefined`, `null`, booleans, integers and strings. Only a string against an integer compares through the integer's decimal notation, so JavaScript's `true == 1`, `"01" == 1` and `" 1" == 1` are false here.
- Server.User.Talk: with sanitizing off, a `null` text makes `text.length` throw. It is modelled as saying nothing, the same as any other non-string text.
- The source leaves a new user's `name`, `pitch` and `speed` unset until login. Here they start as "", 0 and 0.
- Commands.Apply and Server.User.constructor: the drawn colour (`requires colorPick < |settings.bonziColors|`) assumes a non-empty `bonziColors`; with an empty palette the source sets the colour to `undefined`, which is not modelled.
- Commands.BanMinutes: JavaScript numbers are doubles, so a count above 2^53 in "<digits>h" and similar loses precision in the source; here the minutes are exact integers.
- Commands.KickOutcome: `Ban.kick` is only recorded. Should it disconnect its target synchronously, `Room.leave` would splice `this.room.users` inside the `forEach` and skip the member after it; "every match is kicked" assumes it does not.

## Findings

| source | as written | input that shows it | evidently intended | confidence | as-written member | corrected member |
|---|---|---|---|---|---|---|
| meat.js:255-284 | `pitch` and `speed` clamp `parseInt(pitch)` of the number already parsed, which goes through `String` again | a `pitch` argument of 310 or more digits (or 309 nines), from about 1.798e308 on: the first `parseInt` gives `Infinity`, which passes `isNaN`; `parseInt("Infinity")` is `NaN`, so `NaN` is stored and broadcast. With bounds [0, 100], the argument 10^21 (22 digits) prints as "1e+21" and stores 1, where the clamp is 100; in general an argument from 10^21 on stores its first printed digit clamped to the bounds, and that digit is 1 when the double rounds up to a power of ten (22 nines become 1e22) | the clamp of the first parse, always in `[min, max]` | high; not executed | Numbers.StoredAsWrittenLeavesBounds | Commands.Clamp |
