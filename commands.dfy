/**
 * The command table of the server and the parts of its handlers that only
 * compute: the runlevel gate, the pitch/speed clamp, the sanitize switch,
 * the ban-length conversion, and the effects of the moderation commands
 * `kick`, `ban` and `showip` over a snapshot of the room's members.
 */
module Commands {
  import opened JsValues
  import opened Records
  import opened Events

  datatype Handler =
    | Godmode | Sanitize | Joke | Fact | Youtube | Image | Video | Backflip
    | Color | Pope | Asshole | Owo | Vaporwave | Unvaporwave | Name
    | Pitch | Speed | Kick | Ban | Showip

  /** A table entry: a handler, or the marker "passthrough". */
  datatype Entry = Passthrough | Run(handler: Handler)

  /** `userCommands`. */
  const UserCommands: map<string, Entry> := map[
    "godmode" := Run(Godmode), "sanitize" := Run(Sanitize),
    "joke" := Run(Joke), "fact" := Run(Fact),
    "youtube" := Run(Youtube), "image" := Run(Image), "video" := Run(Video),
    "backflip" := Run(Backflip),
    "linux" := Passthrough, "pawn" := Passthrough, "bees" := Passthrough,
    "color" := Run(Color), "pope" := Run(Pope),
    "asshole" := Run(Asshole), "owo" := Run(Owo),
    "triggered" := Passthrough,
    "vaporwave" := Run(Vaporwave), "unvaporwave" := Run(Unvaporwave),
    "name" := Run(Name), "pitch" := Run(Pitch), "speed" := Run(Speed),
    "kick" := Run(Kick), "ban" := Run(Ban), "showip" := Run(Showip)]

  /** The payload of a `command` event: not an object at all, or an object
      whose `list` is an array (`Some`) or missing (`None`). */
  datatype CommandData = NotAnObject | CommandObject(list: Option<seq<Value>>)

  /** `list[0].toLowerCase()`, or `None` where that expression throws. */
  function CommandWord(list: Option<seq<Value>>): (w: Option<string>)
    ensures w.Some? <==> list.Some? && |list.value| > 0 && list.value[0].Str?
    ensures w.Some? ==> w.value == Lower(list.value[0].s)
  {
    match list
    case None => None
    case Some(l) => if |l| > 0 && l[0].Str? then Some(Lower(l[0].s)) else None
  }

  /** `this.room.prefs.runlevel[command] || 0`. */
  function RequiredRunlevel(levels: map<string, int>, cmd: string): int
  {
    if cmd in levels then levels[cmd] else 0
  }

  /** The `n`-th positional argument a handler receives. */
  function Arg(args: seq<Value>, n: nat): Value
  {
    if n < |args| then args[n] else Undefined
  }

  datatype Decision =
    | Ignore                                    // payload is not an object
    | Fail(reason: string)                      // commandFail{reason}
    | Relay(cmd: string)                        // passthrough: room emit cmd {guid}
    | Invoke(handler: Handler, args: seq<Value>) // commandFunc.apply(this, args)

  /** The dispatcher of `command`: the runlevel gate comes first, then the
      table lookup; an unreadable command name and an unknown command both
      end in `commandFail "unknown"`. */
  function Decide(data: CommandData, runlevel: int, levels: map<string, int>): (d: Decision)
    ensures d.Ignore? <==> data.NotAnObject?
    ensures (d.Relay? || d.Invoke?) ==>
      data.CommandObject? && CommandWord(data.list).Some? &&
      runlevel >= RequiredRunlevel(levels, CommandWord(data.list).value)
    ensures d == Fail("runlevel") <==>
      data.CommandObject? && CommandWord(data.list).Some? &&
      runlevel < RequiredRunlevel(levels, CommandWord(data.list).value)
    // past the gate, a known command is relayed or run: never refused
    ensures data.CommandObject? && CommandWord(data.list).Some? &&
            runlevel >= RequiredRunlevel(levels, CommandWord(data.list).value) &&
            CommandWord(data.list).value in UserCommands ==>
      var cmd := CommandWord(data.list).value;
      (UserCommands[cmd] == Passthrough ==> d == Relay(cmd)) &&
      (UserCommands[cmd].Run? ==> d == Invoke(UserCommands[cmd].handler, data.list.value[1..]))
    ensures d.Relay? ==>
      d.cmd == CommandWord(data.list).value && d.cmd in UserCommands && UserCommands[d.cmd] == Passthrough
    ensures d.Invoke? ==>
      CommandWord(data.list).value in UserCommands &&
      UserCommands[CommandWord(data.list).value] == Run(d.handler) && d.args == data.list.value[1..]
    ensures d == Fail("unknown") <==>
      data.CommandObject? &&
      (CommandWord(data.list).None? ||
       (runlevel >= RequiredRunlevel(levels, CommandWord(data.list).value) &&
        CommandWord(data.list).value !in UserCommands))
    ensures d.Fail? ==> d.reason == "runlevel" || d.reason == "unknown"
  {
    match data
    case NotAnObject => Ignore
    case CommandObject(list) =>
      match CommandWord(list)
      case None => Fail("unknown")
      case Some(cmd) =>
        if runlevel < RequiredRunlevel(levels, cmd) then Fail("runlevel")
        else if cmd !in UserCommands then Fail("unknown")
        else match UserCommands[cmd]
          case Passthrough => Relay(cmd)
          case Run(h) => Invoke(h, list.value[1..])
  }

  /** The command name is matched case-insensitively. */
  lemma DecideIgnoresCase(s: string, rest: seq<Value>, runlevel: int, levels: map<string, int>)
    ensures Decide(CommandObject(Some([Str(s)] + rest)), runlevel, levels) ==
            Decide(CommandObject(Some([Str(Lower(s))] + rest)), runlevel, levels)
  {
    LowerIdempotent(s);
  }

  /** `Math.max(Math.min(v, hi), lo)`, the clamp of `pitch` and `speed`. */
  function Clamp(v: int, lo: int, hi: int): (r: int)
    ensures lo <= hi ==> lo <= r <= hi
    ensures lo <= v <= hi ==> r == v
    ensures v < lo ==> r == lo
    ensures lo <= hi < v ==> r == hi
    ensures hi < lo ==> r == lo
  {
    var m := if v < hi then v else hi;
    if m > lo then m else lo
  }

  const SanitizeTerms: seq<string> := ["false", "off", "disable", "disabled", "f", "no", "n"]

  /** The new sanitize flag after `sanitize <args>`. */
  function SanitizeSetting(argsString: string): bool
  {
    !(Lower(argsString) in SanitizeTerms)
  }

  /** The switch ignores case: `OFF` and `off` both turn sanitizing off. */
  lemma SanitizeSettingIgnoresCase(s: string)
    ensures SanitizeSetting(s) == SanitizeSetting(Lower(s))
  {
    LowerIdempotent(s);
  }

  /** `^(\d+)<unit>$` */
  predicate UnitForm(s: string, unit: char)
  {
    |s| >= 2 && s[|s| - 1] == unit && AllDigits(s[..|s| - 1])
  }

  function UnitCount(s: string): nat
    requires |s| >= 1 && AllDigits(s[..|s| - 1])
  {
    DigitsValue(s[..|s| - 1])
  }

  const PermMinutes := 525600

  /** Minutes for a string ban length: "perm", hours, days, weeks, or the
      configured default for anything else. */
  function StringBanMinutes(s: string, banLength: int): (m: int)
    ensures s == "perm" ==> m == PermMinutes
    ensures UnitForm(s, 'h') ==> m == UnitCount(s) * 60
    ensures UnitForm(s, 'd') ==> m == UnitCount(s) * 1440
    ensures UnitForm(s, 'w') ==> m == UnitCount(s) * 10080
    ensures m != banLength ==> m >= 0
  {
    if s == "perm" then PermMinutes
    else if UnitForm(s, 'h') then UnitCount(s) * 60
    else if UnitForm(s, 'd') then UnitCount(s) * 1440
    else if UnitForm(s, 'w') then UnitCount(s) * 10080
    else banLength
  }

  /** `length = length || settings.banLength`, then the string conversion. */
  function BanMinutes(length: Value, banLength: int): (m: Value)
    ensures !m.Str?
    ensures !Truthy(length) ==> m == Num(banLength)
    ensures length.Str? && length.s != "" ==> m == Num(StringBanMinutes(length.s, banLength))
    ensures Truthy(length) && !length.Str? ==> m == length
  {
    var l := if Truthy(length) then length else Num(banLength);
    if l.Str? then Num(StringBanMinutes(l.s, banLength)) else l
  }

  /** A count with a unit suffix converts to minutes: `<n>h`, `<n>d`, `<n>w`. */
  lemma {:induction false} BanMinutesOfUnits(n: nat, banLength: int)
    ensures BanMinutes(Str(NatToString(n) + "h"), banLength) == Num(n * 60)
    ensures BanMinutes(Str(NatToString(n) + "d"), banLength) == Num(n * 1440)
    ensures BanMinutes(Str(NatToString(n) + "w"), banLength) == Num(n * 10080)
  {
    DigitsValueOfNatToString(n);
    var digits := NatToString(n);
    forall unit | unit in "hdw"
      ensures UnitForm(digits + [unit], unit) && UnitCount(digits + [unit]) == n
    {
      assert (digits + [unit])[..|digits|] == digits;
    }
    assert "h" == ['h'] && "d" == ['d'] && "w" == ['w'];
  }

  /** Any other string is not a unit form and falls back to the default. */
  lemma BanMinutesFallback(s: string, banLength: int)
    requires s != "" && s != "perm"
    requires !UnitForm(s, 'h') && !UnitForm(s, 'd') && !UnitForm(s, 'w')
    ensures BanMinutes(Str(s), banLength) == Num(banLength)
  {
  }

  /** The name test of `kick`, `ban` and `showip`. */
  predicate NameMatches(m: Member, username: string)
  {
    Lower(m.pub.name) == Lower(username)
  }

  /** The members whose name matches `username`, in room order. */
  function Matches(members: seq<Member>, username: string): (r: seq<Member>)
    ensures |r| <= |members|
    ensures forall m :: m in r <==> m in members && NameMatches(m, username)
    decreases |members|
  {
    if members == [] then []
    else
      var last := members[|members| - 1];
      Matches(members[..|members| - 1], username) + (if NameMatches(last, username) then [last] else [])
  }

  /** `members[k]` matches and no later member does. */
  predicate IsLastMatch(members: seq<Member>, username: string, k: int)
  {
    0 <= k < |members| && NameMatches(members[k], username) &&
    forall j :: k < j < |members| ==> !NameMatches(members[j], username)
  }

  /** The matches keep room order: the last one is the last member of the
      room whose name matches. */
  lemma {:induction false} MatchesLast(members: seq<Member>, username: string)
    requires Matches(members, username) != []
    ensures var ms := Matches(members, username);
      exists k :: IsLastMatch(members, username, k) && members[k] == ms[|ms| - 1]
    decreases |members|
  {
    var front := members[..|members| - 1];
    var last := members[|members| - 1];
    var ms := Matches(members, username);
    if NameMatches(last, username) {
      assert IsLastMatch(members, username, |members| - 1);
    } else {
      assert ms == Matches(front, username);
      MatchesLast(front, username);
      var k :| IsLastMatch(front, username, k) && front[k] == ms[|ms| - 1];
      assert IsLastMatch(members, username, k) by {
        forall j | k < j < |members|
          ensures !NameMatches(members[j], username)
        {
          if j < |members| - 1 {
            assert members[j] == front[j];
          }
        }
      }
    }
  }

  /** The argument as a string, where the handlers only reach it as one. */
  function StrOr(v: Value): string
  {
    if v.Str? then v.s else ""
  }

  /** The `forEach` over `this.room.users`: `None` where
      `username.toLowerCase()` throws (the username is not a string and the
      room is not empty), else the matching members in order. */
  method FindMatches(members: seq<Member>, username: Value) returns (r: Option<seq<Member>>)
    ensures r.None? <==> !username.Str? && |members| > 0
    ensures r.Some? ==> r.value == Matches(members, StrOr(username))
  {
    var found: seq<Member> := [];
    var i := 0;
    while i < |members|
      invariant 0 <= i <= |members|
      invariant found == Matches(members[..i], StrOr(username))
      invariant i > 0 ==> username.Str?
    {
      if !username.Str? {
        return None;
      }
      assert members[..i + 1][..i] == members[..i];
      if NameMatches(members[i], username.s) {
        found := found + [members[i]];
      }
      i := i + 1;
    }
    assert members[..i] == members;
    return Some(found);
  }

  function NotFound(self: Member, username: Value): Event
  {
    SocketEmit(self.guid, "alert", AlertText("Could not find user: " + ToStr(username)))
  }

  /** Per match: `Ban.kick(ip, ...)` then a room-wide alert. */
  function KickEvents(ms: seq<Member>, username: string, kicker: string, rid: string): (r: seq<Event>)
    ensures |r| == 2 * |ms|
    decreases |ms|
  {
    if ms == [] then []
    else
      [BanKick(ms[0].ip, "Kicked by " + kicker),
       RoomEmit(rid, "alert", AlertText(username + " has been kicked by " + kicker))]
      + KickEvents(ms[1..], username, kicker, rid)
  }

  /** Per match, in room order: the kick of its address, then the
      room-wide alert naming the kicker. */
  lemma {:induction false} KickEventsAt(ms: seq<Member>, username: string, kicker: string, rid: string, i: nat)
    requires i < |ms|
    ensures KickEvents(ms, username, kicker, rid)[2 * i] == BanKick(ms[i].ip, "Kicked by " + kicker)
    ensures KickEvents(ms, username, kicker, rid)[2 * i + 1] ==
      RoomEmit(rid, "alert", AlertText(username + " has been kicked by " + kicker))
    decreases i
  {
    var r := KickEvents(ms, username, kicker, rid);
    var head := [BanKick(ms[0].ip, "Kicked by " + kicker),
                 RoomEmit(rid, "alert", AlertText(username + " has been kicked by " + kicker))];
    var rest := KickEvents(ms[1..], username, kicker, rid);
    assert r == head + rest;
    if i > 0 {
      KickEventsAt(ms[1..], username, kicker, rid, i - 1);
      var n := 2 * (i - 1);
      assert r[n + 2] == rest[n] && r[n + 3] == rest[n + 1];
      assert 2 * i == n + 2;
    }
  }

  /** Every match is kicked, every kick is of a match, and nothing but
      kicks and room alerts is emitted. */
  lemma KickEventsContents(ms: seq<Member>, username: string, kicker: string, rid: string)
    ensures forall m :: m in ms ==> BanKick(m.ip, "Kicked by " + kicker) in KickEvents(ms, username, kicker, rid)
    ensures forall e :: e in KickEvents(ms, username, kicker, rid) && e.BanKick? ==> exists m :: m in ms && e.ip == m.ip
    ensures forall e :: e in KickEvents(ms, username, kicker, rid) ==> e.BanKick? || e.RoomEmit?
  {
    var r := KickEvents(ms, username, kicker, rid);
    forall m | m in ms
      ensures BanKick(m.ip, "Kicked by " + kicker) in r
    {
      var i :| 0 <= i < |ms| && ms[i] == m;
      KickEventsAt(ms, username, kicker, rid, i);
    }
    forall e | e in r
      ensures (e.BanKick? ==> exists m :: m in ms && e.ip == m.ip) && (e.BanKick? || e.RoomEmit?)
    {
      var p :| 0 <= p < |r| && r[p] == e;
      var i := p / 2;
      KickEventsAt(ms, username, kicker, rid, i);
      assert p == 2 * i || p == 2 * i + 1;
      assert ms[i] in ms;
    }
  }

  /** Effects of `kick username` by `self` in room `rid`; `None` = throws. */
  function KickOutcome(self: Member, rid: string, members: seq<Member>, username: Value): (r: Option<seq<Event>>)
    ensures self.pub.color != PopeColor || !Truthy(username) ==> r == Some([])
    ensures r.None? <==> self.pub.color == PopeColor && Truthy(username) && !username.Str? && |members| > 0
    ensures r.Some? && self.pub.color == PopeColor && Truthy(username) && Matches(members, StrOr(username)) == [] ==>
      r.value == [NotFound(self, username)]
    // with matches, the effects are exactly a kick and an alert per match
    ensures self.pub.color == PopeColor && Truthy(username) && username.Str? && Matches(members, username.s) != [] ==>
      r == Some(KickEvents(Matches(members, username.s), username.s, self.pub.name, rid))
  {
    if self.pub.color != PopeColor || !Truthy(username) then Some([])
    else if !username.Str? && |members| > 0 then None
    else
      var ms := Matches(members, StrOr(username));
      if ms == [] then Some([NotFound(self, username)])
      else Some(KickEvents(ms, ToStr(username), self.pub.name, rid))
  }

  /** A kick only ever targets members whose name matches, and every such
      member is kicked, by the pope's name. */
  lemma KickTargets(self: Member, rid: string, members: seq<Member>, username: Value)
    ensures var r := KickOutcome(self, rid, members, username);
      r.Some? ==> forall e :: e in r.value && e.BanKick? ==>
        self.pub.color == PopeColor && username.Str? &&
        exists m :: m in members && NameMatches(m, username.s) && m.ip == e.ip
    ensures var r := KickOutcome(self, rid, members, username);
      r.Some? && self.pub.color == PopeColor && username.Str? && Truthy(username) ==>
        forall m :: m in members && NameMatches(m, username.s) ==> BanKick(m.ip, "Kicked by " + self.pub.name) in r.value
  {
    var ms := Matches(members, StrOr(username));
    KickEventsContents(ms, ToStr(username), self.pub.name, rid);
  }

  /** Per match, a private alert with the target's address and location. */
  function ShowipEvents(self: Member, ms: seq<Member>, username: string): (r: seq<Event>)
    ensures |r| == |ms|
    ensures forall e :: e in r ==> e.SocketEmit? && e.guid == self.guid
    ensures forall i :: 0 <= i < |ms| ==>
      r[i] == SocketEmit(self.guid, "alert", AlertText(username + "'s IP: " + ms[i].ip + " | Location: " + ms[i].pub.location))
    decreases |ms|
  {
    if ms == [] then []
    else
      [SocketEmit(self.guid, "alert", AlertText(username + "'s IP: " + ms[0].ip + " | Location: " + ms[0].pub.location))]
      + ShowipEvents(self, ms[1..], username)
  }

  /** Effects of `showip username`; everything goes to the caller only. */
  function ShowipOutcome(self: Member, members: seq<Member>, username: Value): (r: Option<seq<Event>>)
    ensures self.pub.color != PopeColor || !Truthy(username) ==> r == Some([])
    ensures r.None? <==> self.pub.color == PopeColor && Truthy(username) && !username.Str? && |members| > 0
    ensures r.Some? ==> forall e :: e in r.value ==> e.SocketEmit? && e.guid == self.guid
    ensures r.Some? && self.pub.color == PopeColor && Truthy(username) ==>
      |r.value| == if Matches(members, StrOr(username)) == [] then 1 else |Matches(members, StrOr(username))|
    // the caller learns each match's address and location, or that there is none
    ensures self.pub.color == PopeColor && Truthy(username) && username.Str? && Matches(members, username.s) != [] ==>
      r == Some(ShowipEvents(self, Matches(members, username.s), username.s))
    ensures r.Some? && self.pub.color == PopeColor && Truthy(username) && Matches(members, StrOr(username)) == [] ==>
      r.value == [NotFound(self, username)]
  {
    if self.pub.color != PopeColor || !Truthy(username) then Some([])
    else if !username.Str? && |members| > 0 then None
    else
      var ms := Matches(members, StrOr(username));
      if ms == [] then Some([NotFound(self, username)])
      else Some(ShowipEvents(self, ms, ToStr(username)))
  }

  /** `reason = reason || "No reason provided"`. */
  function BanReason(reason: Value): Value
  {
    if Truthy(reason) then reason else Str("No reason provided")
  }

  /** The room-wide alert announcing a ban. */
  function BanAlert(rid: string, username: Value, banner: string, why: Value): Event
  {
    RoomEmit(rid, "alert", AlertText(ToStr(username) + " has been banned by " + banner + " for: " + ToStr(why)))
  }

  /** Effects of `ban ip username reason length`. With `ip` = "auto" the
      address is that of the LAST member whose name matches. */
  function BanOutcome(self: Member, rid: string, members: seq<Member>, banLength: int,
                      ip: Value, username: Value, reason: Value, length: Value): (r: Option<seq<Event>>)
    ensures self.pub.color != PopeColor || !Truthy(ip) || !Truthy(username) ==> r == Some([])
  {
    if self.pub.color != PopeColor || !Truthy(ip) || !Truthy(username) then Some([])
    else
      var why := BanReason(reason);
      var minutes := BanMinutes(length, banLength);
      var announce := BanAlert(rid, username, self.pub.name, why);
      if ip != Str("auto") then Some([BanAdd(ip, minutes, why), announce])
      else AutoBanOutcome(self, members, minutes, why, announce, username)
  }

  /** The "auto" branch of `ban`: the address of the last matching member. */
  function AutoBanOutcome(self: Member, members: seq<Member>, minutes: Value, why: Value, announce: Event,
                          username: Value): (r: Option<seq<Event>>)
    ensures r.None? <==> !username.Str? && |members| > 0
  {
    if !username.Str? && |members| > 0 then None
    else
      var ms := Matches(members, StrOr(username));
      if ms == [] then Some([NotFound(self, username)])
      else Some([BanAdd(Str(ms[|ms| - 1].ip), minutes, why), announce])
  }

  /** What a ban may do: nothing without the pope colour and both
      arguments; it throws only for "auto" with a non-string name in a
      non-empty room; at most one `Ban.addBan` and one alert; the address is
      the given one, or with "auto" that of the LAST matching member; the
      minutes never stay a string. */
  lemma BanOutcomeProperties(self: Member, rid: string, members: seq<Member>, banLength: int,
                             ip: Value, username: Value, reason: Value, length: Value)
    ensures self.pub.color != PopeColor || !Truthy(ip) || !Truthy(username) ==>
      BanOutcome(self, rid, members, banLength, ip, username, reason, length) == Some([])
    ensures BanOutcome(self, rid, members, banLength, ip, username, reason, length).None? <==>
      self.pub.color == PopeColor && Truthy(ip) && Truthy(username) && ip == Str("auto") &&
      !username.Str? && |members| > 0
    ensures var r := BanOutcome(self, rid, members, banLength, ip, username, reason, length);
      r.Some? ==> |r.value| <= 2 && forall e :: e in r.value && e.BanAdd? ==>
        self.pub.color == PopeColor && e.minutes == BanMinutes(length, banLength) && !e.minutes.Str? &&
        (ip != Str("auto") ==> e.target == ip) &&
        (ip == Str("auto") ==>
          var ms := Matches(members, StrOr(username)); ms != [] && e.target == Str(ms[|ms| - 1].ip))
    ensures (self.pub.color == PopeColor && Truthy(ip) && Truthy(username) && ip == Str("auto") &&
             username.Str? && Matches(members, username.s) == []) ==>
      BanOutcome(self, rid, members, banLength, ip, username, reason, length) == Some([NotFound(self, username)])
    // a pope's ban of a given address bans it and tells the room
    ensures self.pub.color == PopeColor && Truthy(ip) && Truthy(username) && ip != Str("auto") ==>
      BanOutcome(self, rid, members, banLength, ip, username, reason, length) ==
        Some([BanAdd(ip, BanMinutes(length, banLength), BanReason(reason)),
              BanAlert(rid, username, self.pub.name, BanReason(reason))])
    // "auto" with a match bans the last match's address and tells the room
    ensures self.pub.color == PopeColor && Truthy(username) && ip == Str("auto") &&
            username.Str? && Matches(members, username.s) != [] ==>
      var ms := Matches(members, username.s);
      BanOutcome(self, rid, members, banLength, ip, username, reason, length) ==
        Some([BanAdd(Str(ms[|ms| - 1].ip), BanMinutes(length, banLength), BanReason(reason)),
              BanAlert(rid, username, self.pub.name, BanReason(reason))])
  {
    var r := BanOutcome(self, rid, members, banLength, ip, username, reason, length);
    var minutes := BanMinutes(length, banLength);
    if self.pub.color == PopeColor && Truthy(ip) && Truthy(username) {
      var announce := BanAlert(rid, username, self.pub.name, BanReason(reason));
      if ip != Str("auto") {
        assert r == Some([BanAdd(ip, minutes, BanReason(reason)), announce]);
      } else {
        assert r == AutoBanOutcome(self, members, minutes, BanReason(reason), announce, username);
      }
    }
  }

  /** The body of the `kick` handler: the `forEach` over the room, then the
      kicks. `events` is `None` where the handler throws. */
  method RunKick(self: Member, rid: string, members: seq<Member>, username: Value) returns (events: Option<seq<Event>>)
    ensures events == KickOutcome(self, rid, members, username)
  {
    if self.pub.color != PopeColor || !Truthy(username) {
      return Some([]);
    }
    var found := FindMatches(members, username);
    if found.None? {
      return None;
    }
    if found.value == [] {
      events := Some([NotFound(self, username)]);
    } else {
      events := Some(KickEvents(found.value, ToStr(username), self.pub.name, rid));
    }
  }

  /** The body of the `showip` handler. */
  method RunShowip(self: Member, members: seq<Member>, username: Value) returns (events: Option<seq<Event>>)
    ensures events == ShowipOutcome(self, members, username)
  {
    if self.pub.color != PopeColor || !Truthy(username) {
      return Some([]);
    }
    var found := FindMatches(members, username);
    if found.None? {
      return None;
    }
    if found.value == [] {
      events := Some([NotFound(self, username)]);
    } else {
      events := Some(ShowipEvents(self, found.value, ToStr(username)));
    }
  }

  /** The body of the `ban` handler. */
  method RunBan(self: Member, rid: string, members: seq<Member>, banLength: int,
                ip: Value, username: Value, reason: Value, length: Value) returns (events: Option<seq<Event>>)
    ensures events == BanOutcome(self, rid, members, banLength, ip, username, reason, length)
  {
    if self.pub.color != PopeColor || !Truthy(ip) || !Truthy(username) {
      return Some([]);
    }
    var why := BanReason(reason);
    var minutes := BanMinutes(length, banLength);
    var announce := BanAlert(rid, username, self.pub.name, why);
    if ip != Str("auto") {
      events := Some([BanAdd(ip, minutes, why), announce]);
    } else {
      events := RunAutoBan(self, members, minutes, why, announce, username);
    }
  }

  /** `ban auto username ...`: the address is looked up among the members;
      `minutes`, `why` and `announce` are the ban length, reason and alert. */
  method RunAutoBan(self: Member, members: seq<Member>, minutes: Value, why: Value, announce: Event,
                    username: Value) returns (events: Option<seq<Event>>)
    ensures events == AutoBanOutcome(self, members, minutes, why, announce, username)
  {
    var found := FindMatches(members, username);
    if found.None? {
      return None;
    }
    if found.value == [] {
      return Some([NotFound(self, username)]);
    }
    var target := found.value[|found.value| - 1].ip;
    events := Some([BanAdd(Str(target), minutes, why), announce]);
  }

  /** What a handler leaves behind: the caller's new private and public
      state and the effects it emitted, in order. */
  datatype Effect = Effect(priv: Private, pub: Public, events: seq<Event>)

  function Updated(self: Member, rid: string, pub: Public): Event
  {
    RoomEmit(rid, "update", Update(self.guid, pub))
  }

  /** `commandFunc.apply(this, args)` for the handler `h`, run by the user
      `self` (with private state `priv`) in room `rid` whose preferences are
      `prefs` and whose members are `members`. `colorPick` is the index
      `Math.floor(Math.random() * bonziColors.length)`. `None`: the handler
      throws. */
  function Apply(h: Handler, args: seq<Value>, self: Member, priv: Private, prefs: Prefs,
                 rid: string, members: seq<Member>, env: Env, settings: Settings, colorPick: nat): (r: Option<Effect>)
    requires colorPick < |settings.bonziColors|
    // only the moderation commands can throw, and only on a non-string name
    ensures r.None? ==> (h == Kick || h == Ban || h == Showip) && |members| > 0
    // no handler logs the user in or out
    ensures r.Some? ==> r.value.priv.login == priv.login
    // only godmode and sanitize touch the private state
    ensures r.Some? && h != Godmode && h != Sanitize ==> r.value.priv == priv
    ensures r.Some? && h == Godmode ==>
      r.value.priv == if LooseEquals(Arg(args, 0), prefs.godword) then priv.(runlevel := GodRunlevel) else priv
    ensures r.Some? && h == Sanitize ==>
      r.value.priv == priv.(sanitize := !(Lower(env.argsString(args)) in SanitizeTerms))
    // moderation needs the pope colour and changes no state
    ensures (h == Kick || h == Ban || h == Showip) && self.pub.color != PopeColor ==> r == Some(Effect(priv, self.pub, []))
    ensures r.Some? && (h == Kick || h == Ban || h == Showip) ==> r.value.pub == self.pub
    // pitch and speed: a value that is not an integer changes nothing; else the clamped value
    ensures h == Pitch && env.parseInt(Arg(args, 0)).None? ==> r == Some(Effect(priv, self.pub, []))
    ensures h == Speed && env.parseInt(Arg(args, 0)).None? ==> r == Some(Effect(priv, self.pub, []))
    ensures h == Pitch && env.parseInt(Arg(args, 0)).Some? ==>
      (r.Some? &&
       r.value.pub == self.pub.(pitch := Clamp(env.parseInt(Arg(args, 0)).value, prefs.pitch.min, prefs.pitch.max)) &&
       (prefs.pitch.min <= prefs.pitch.max ==> prefs.pitch.min <= r.value.pub.pitch <= prefs.pitch.max))
    ensures h == Speed && env.parseInt(Arg(args, 0)).Some? ==>
      (r.Some? &&
       r.value.pub == self.pub.(speed := Clamp(env.parseInt(Arg(args, 0)).value, prefs.speed.min, prefs.speed.max)) &&
       (prefs.speed.min <= prefs.speed.max ==> prefs.speed.min <= r.value.pub.speed <= prefs.speed.max))
    // colour: a given value must be in the palette, a missing one is drawn from it
    ensures h == Color ==> r.Some? && (r.value.pub.color == self.pub.color || r.value.pub.color in settings.bonziColors)
    ensures h == Pope ==> r == Some(Effect(priv, self.pub.(color := PopeColor), [Updated(self, rid, self.pub.(color := PopeColor))]))
    // name: a name over the room's limit changes nothing
    ensures h == Name && |env.argsString(args)| > prefs.name_limit ==> r == Some(Effect(priv, self.pub, []))
    // name within the limit: `argsString || defaultName`, sanitized when on, then `update`
    ensures h == Name && |env.argsString(args)| <= prefs.name_limit ==>
      var given := env.argsString(args);
      var name := if given != "" then given else prefs.defaultName;
      var pub := self.pub.(name := if priv.sanitize then env.sanitize(Str(name)) else name);
      r == Some(Effect(priv, pub, [Updated(self, rid, pub)]))
    ensures h == Color && Arg(args, 0).Undefined? ==>
      var pub := self.pub.(color := settings.bonziColors[colorPick]);
      r == Some(Effect(priv, pub, [Updated(self, rid, pub)]))
    ensures h == Color && Arg(args, 0).Str? && Arg(args, 0).s in settings.bonziColors ==>
      var pub := self.pub.(color := Arg(args, 0).s);
      r == Some(Effect(priv, pub, [Updated(self, rid, pub)]))
    ensures h == Color && !Arg(args, 0).Undefined? && !(Arg(args, 0).Str? && Arg(args, 0).s in settings.bonziColors) ==>
      r == Some(Effect(priv, self.pub, []))
  {
    var arg0 := Arg(args, 0);
    match h
    case Godmode =>
      Some(Effect(if LooseEquals(arg0, prefs.godword) then priv.(runlevel := GodRunlevel) else priv, self.pub, []))
    case Sanitize =>
      Some(Effect(priv.(sanitize := SanitizeSetting(env.argsString(args))), self.pub, []))
    case Joke => Some(Effect(priv, self.pub, [RoomEmit(rid, "joke", GuidOnly(self.guid))]))
    case Fact => Some(Effect(priv, self.pub, [RoomEmit(rid, "fact", GuidOnly(self.guid))]))
    case Youtube => Some(Effect(priv, self.pub, [RoomEmit(rid, "youtube", Media(self.guid, MaybeSanitized(arg0, priv, env)))]))
    case Image => Some(Effect(priv, self.pub, [RoomEmit(rid, "image", Media(self.guid, MaybeSanitized(arg0, priv, env)))]))
    case Video => Some(Effect(priv, self.pub, [RoomEmit(rid, "video", Media(self.guid, MaybeSanitized(arg0, priv, env)))]))
    case Backflip => Some(Effect(priv, self.pub, [RoomEmit(rid, "backflip", Swag(self.guid, arg0 == Str("swag")))]))
    case Color =>
      if arg0.Undefined? then
        var pub := self.pub.(color := settings.bonziColors[colorPick]);
        Some(Effect(priv, pub, [Updated(self, rid, pub)]))
      else if !arg0.Str? || arg0.s !in settings.bonziColors then Some(Effect(priv, self.pub, []))
      else
        var pub := self.pub.(color := arg0.s);
        Some(Effect(priv, pub, [Updated(self, rid, pub)]))
    case Pope =>
      var pub := self.pub.(color := PopeColor);
      Some(Effect(priv, pub, [Updated(self, rid, pub)]))
    case Asshole => Some(Effect(priv, self.pub, [RoomEmit(rid, "asshole", Aimed(self.guid, env.sanitize(Str(env.argsString(args)))))]))
    case Owo => Some(Effect(priv, self.pub, [RoomEmit(rid, "owo", Aimed(self.guid, env.sanitize(Str(env.argsString(args)))))]))
    case Vaporwave =>
      Some(Effect(priv, self.pub, [SocketEmit(self.guid, "vaporwave", NoData), RoomEmit(rid, "youtube", Media(self.guid, Str(VaporwaveVideo)))]))
    case Unvaporwave => Some(Effect(priv, self.pub, [SocketEmit(self.guid, "unvaporwave", NoData)]))
    case Name =>
      var given := env.argsString(args);
      if |given| > prefs.name_limit then Some(Effect(priv, self.pub, []))
      else
        var name := if given != "" then given else prefs.defaultName;
        var pub := self.pub.(name := if priv.sanitize then env.sanitize(Str(name)) else name);
        Some(Effect(priv, pub, [Updated(self, rid, pub)]))
    case Pitch =>
      (match env.parseInt(arg0)
       case None => Some(Effect(priv, self.pub, []))
       case Some(v) =>
         var pub := self.pub.(pitch := Clamp(v, prefs.pitch.min, prefs.pitch.max));
         Some(Effect(priv, pub, [Updated(self, rid, pub)])))
    case Speed =>
      (match env.parseInt(arg0)
       case None => Some(Effect(priv, self.pub, []))
       case Some(v) =>
         var pub := self.pub.(speed := Clamp(v, prefs.speed.min, prefs.speed.max));
         Some(Effect(priv, pub, [Updated(self, rid, pub)])))
    case Kick =>
      (match KickOutcome(self, rid, members, arg0)
       case None => None
       case Some(es) => Some(Effect(priv, self.pub, es)))
    case Ban =>
      (match BanOutcome(self, rid, members, settings.banLength, arg0, Arg(args, 1), Arg(args, 2), Arg(args, 3))
       case None => None
       case Some(es) => Some(Effect(priv, self.pub, es)))
    case Showip =>
      match ShowipOutcome(self, members, arg0)
      case None => None
      case Some(es) => Some(Effect(priv, self.pub, es))
  }

  /** Who may change the public state: only `color`, `pope`, `name`,
      `pitch` and `speed`, and each change of pitch or speed is announced.
      The moderation colour is gained only through `pope`, or through
      `color` when the palette itself holds it. */
  lemma ApplyPublicState(h: Handler, args: seq<Value>, self: Member, priv: Private, prefs: Prefs,
                         rid: string, members: seq<Member>, env: Env, settings: Settings, colorPick: nat)
    requires colorPick < |settings.bonziColors|
    ensures var r := Apply(h, args, self, priv, prefs, rid, members, env, settings, colorPick);
      (h == Pitch || h == Speed) && env.parseInt(Arg(args, 0)).Some? ==>
        r.Some? && r.value.events == [Updated(self, rid, r.value.pub)]
    ensures var r := Apply(h, args, self, priv, prefs, rid, members, env, settings, colorPick);
      r.Some? && h != Color && h != Pope && h != Name && h != Pitch && h != Speed ==> r.value.pub == self.pub
    ensures var r := Apply(h, args, self, priv, prefs, rid, members, env, settings, colorPick);
      r.Some? && r.value.pub.color == PopeColor && self.pub.color != PopeColor ==>
        h == Pope || (h == Color && PopeColor in settings.bonziColors)
  {
  }

  /** The handlers that only emit: godmode and sanitize emit nothing; each
      media handler sends its event (vaporwave two) carrying the sender's
      guid, and changes no state. */
  lemma ApplyEmits(h: Handler, args: seq<Value>, self: Member, priv: Private, prefs: Prefs,
                   rid: string, members: seq<Member>, env: Env, settings: Settings, colorPick: nat)
    requires colorPick < |settings.bonziColors|
    ensures var r := Apply(h, args, self, priv, prefs, rid, members, env, settings, colorPick);
      (h == Godmode || h == Sanitize ==> r.Some? && r.value.events == [])
    ensures var r := Apply(h, args, self, priv, prefs, rid, members, env, settings, colorPick);
      (h == Joke ==> r == Some(Effect(priv, self.pub, [RoomEmit(rid, "joke", GuidOnly(self.guid))]))) &&
      (h == Fact ==> r == Some(Effect(priv, self.pub, [RoomEmit(rid, "fact", GuidOnly(self.guid))])))
    ensures var r := Apply(h, args, self, priv, prefs, rid, members, env, settings, colorPick);
      var vid := MaybeSanitized(Arg(args, 0), priv, env);
      (h == Youtube ==> r == Some(Effect(priv, self.pub, [RoomEmit(rid, "youtube", Media(self.guid, vid))]))) &&
      (h == Image ==> r == Some(Effect(priv, self.pub, [RoomEmit(rid, "image", Media(self.guid, vid))]))) &&
      (h == Video ==> r == Some(Effect(priv, self.pub, [RoomEmit(rid, "video", Media(self.guid, vid))])))
    ensures var r := Apply(h, args, self, priv, prefs, rid, members, env, settings, colorPick);
      h == Backflip ==> r == Some(Effect(priv, self.pub, [RoomEmit(rid, "backflip", Swag(self.guid, Arg(args, 0) == Str("swag")))]))
    ensures var r := Apply(h, args, self, priv, prefs, rid, members, env, settings, colorPick);
      var target := env.sanitize(Str(env.argsString(args)));
      (h == Asshole ==> r == Some(Effect(priv, self.pub, [RoomEmit(rid, "asshole", Aimed(self.guid, target))]))) &&
      (h == Owo ==> r == Some(Effect(priv, self.pub, [RoomEmit(rid, "owo", Aimed(self.guid, target))])))
    ensures var r := Apply(h, args, self, priv, prefs, rid, members, env, settings, colorPick);
      (h == Vaporwave ==>
         r == Some(Effect(priv, self.pub, [SocketEmit(self.guid, "vaporwave", NoData),
                                           RoomEmit(rid, "youtube", Media(self.guid, Str(VaporwaveVideo)))]))) &&
      (h == Unvaporwave ==> r == Some(Effect(priv, self.pub, [SocketEmit(self.guid, "unvaporwave", NoData)])))
  {
  }

  /** `kick`, `ban` and `showip` have exactly the effects of their outcome
      functions, and throw exactly where those do. */
  lemma ApplyModeration(h: Handler, args: seq<Value>, self: Member, priv: Private, prefs: Prefs,
                        rid: string, members: seq<Member>, env: Env, settings: Settings, colorPick: nat)
    requires colorPick < |settings.bonziColors|
    ensures var r := Apply(h, args, self, priv, prefs, rid, members, env, settings, colorPick);
      var o := KickOutcome(self, rid, members, Arg(args, 0));
      h == Kick ==> (r.None? <==> o.None?) && (r.Some? ==> r.value == Effect(priv, self.pub, o.value))
    ensures var r := Apply(h, args, self, priv, prefs, rid, members, env, settings, colorPick);
      var o := BanOutcome(self, rid, members, settings.banLength, Arg(args, 0), Arg(args, 1), Arg(args, 2), Arg(args, 3));
      h == Ban ==> (r.None? <==> o.None?) && (r.Some? ==> r.value == Effect(priv, self.pub, o.value))
    ensures var r := Apply(h, args, self, priv, prefs, rid, members, env, settings, colorPick);
      var o := ShowipOutcome(self, members, Arg(args, 0));
      h == Showip ==> (r.None? <==> o.None?) && (r.Some? ==> r.value == Effect(priv, self.pub, o.value))
  {
  }

  /** The video id `vaporwave` plays in the room. */
  const VaporwaveVideo := "_4gl-FX2RvI"

  /** `this.private.sanitize ? sanitize(vidRaw) : vidRaw`. */
  function MaybeSanitized(v: Value, priv: Private, env: Env): Value
  {
    if priv.sanitize then Str(env.sanitize(v)) else v
  }
}
