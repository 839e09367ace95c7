/** The control socket: its packets and its clients (src/control/protocol.rs, src/control/server.rs). */
module Control {
  import opened Model

  datatype Result<T> = Ok(value: T) | Err(error: string)

  datatype HapticsDevice = DualSense | DualSenseEdge

  datatype ControlState = ControlState(uhidReady: bool, needsConfig: bool, btHaptics: Option<HapticsDevice>)

  /** A configuration's origin and its text. */
  datatype ActiveConfig = ActiveConfig(source: string, content: string)

  datatype ServerPacket =
    | Hello(state: ControlState)
    | State(state: ControlState)
    | OkSwitchConfig
    | Error(code: string, message: string)

  const MAX_CONFIG_SOURCE_SIZE: nat := 4096

  const MAX_CONFIG_FILE_SIZE: nat := 65536

  // ------------------------------------------------------------ state packets

  function BoolDigit(value: bool): string {
    if value then "1" else "0"
  }

  function DeviceField(device: Option<HapticsDevice>): string {
    match device
    case None => "none"
    case Some(DualSense) => "dualsense"
    case Some(DualSenseEdge) => "dualsense-edge"
  }

  function Fields(state: ControlState): string {
    ("uhid_ready=" + BoolDigit(state.uhidReady)) + " "
    + (("needs_config=" + BoolDigit(state.needsConfig)) + " "
       + ("bt_haptics=" + DeviceField(state.btHaptics)))
  }

  function HelloPacket(state: ControlState): string {
    "hello " + ("version=3 " + Fields(state))
  }

  function StatePacket(state: ControlState): string {
    "state " + Fields(state)
  }

  function StripPrefix(s: string, prefix: string): (r: Option<string>)
    ensures r.Some? <==> prefix <= s
    ensures r.Some? ==> s == prefix + r.value
  {
    if prefix <= s then Some(s[|prefix|..]) else None
  }

  predicate IsSpace(c: char) {
    c == ' ' || c == '\t' || c == '\n' || c == '\r' || c == 12 as char
  }

  /** The first word of `s` and what follows it. */
  function NextWord(s: string): (r: (string, string))
    ensures |r.0| + |r.1| <= |s|
    ensures r.0 == "" ==> |r.1| == 0
  {
    if s == "" then ("", "")
    else if IsSpace(s[0]) then NextWord(s[1..])
    else TakeWord(s)
  }

  function TakeWord(s: string): (r: (string, string))
    ensures |r.0| + |r.1| == |s|
    ensures s != "" && !IsSpace(s[0]) ==> r.0 != ""
  {
    if s == "" || IsSpace(s[0]) then ("", s)
    else (([s[0]] + TakeWord(s[1..]).0), TakeWord(s[1..]).1)
  }

  function ParseBool(value: string): Option<bool> {
    if value == "0" then Some(false) else if value == "1" then Some(true) else None
  }

  function ParseDevice(value: string): Option<Option<HapticsDevice>> {
    if value == "none" then Some(None)
    else if value == "dualsense" then Some(Some(DualSense))
    else if value == "dualsense-edge" then Some(Some(DualSenseEdge))
    else None
  }

  function ParseStateFields(input: string): Result<ControlState> {
    var (first, rest) := NextWord(input);
    var ready := StripPrefix(first, "uhid_ready=");
    if ready.None? then Err("missing uhid_ready field") else
    var (second, rest2) := NextWord(rest);
    var needs := StripPrefix(second, "needs_config=");
    if needs.None? then Err("missing needs_config field") else
    var (third, rest3) := NextWord(rest2);
    var bt := StripPrefix(third, "bt_haptics=");
    if bt.None? then Err("missing bt_haptics field")
    else if NextWord(rest3).0 != "" then Err("unexpected state fields")
    else if ParseBool(ready.value).None? then Err("invalid boolean value")
    else if ParseBool(needs.value).None? then Err("invalid boolean value")
    else if ParseDevice(bt.value).None? then Err("invalid Bluetooth haptics device")
    else Ok(ControlState(ParseBool(ready.value).value, ParseBool(needs.value).value, ParseDevice(bt.value).value))
  }

  /** Splits at the first occurrence of `c`. */
  function SplitAt(s: string, c: char): (r: Option<(string, string)>)
    ensures r.Some? ==> s == r.value.0 + [c] + r.value.1 && c !in r.value.0
    ensures r.None? ==> c !in s
  {
    if s == "" then None
    else if s[0] == c then Some(("", s[1..]))
    else match SplitAt(s[1..], c)
      case None => None
      case Some((before, after)) => Some(([s[0]] + before, after))
  }

  function ParseServerPacket(text: string): Result<ServerPacket> {
    var hello := StripPrefix(text, "hello ");
    if hello.Some? then
      var fields := StripPrefix(hello.value, "version=3 ");
      if fields.None? then Err("unsupported control protocol version")
      else match ParseStateFields(fields.value)
        case Ok(state) => Ok(Hello(state))
        case Err(e) => Err(e)
    else
    var state := StripPrefix(text, "state ");
    if state.Some? then
      (match ParseStateFields(state.value)
       case Ok(s) => Ok(State(s))
       case Err(e) => Err(e))
    else if text == "ok switch-config" then Ok(OkSwitchConfig)
    else
    var error := StripPrefix(text, "error ");
    if error.Some? then
      (match SplitAt(error.value, ' ')
       case None => Err("malformed error packet")
       case Some((code, message)) =>
         if code == "" || message == "" then Err("malformed error packet") else Ok(Error(code, message)))
    else Err("unknown server packet")
  }

  // ---------------------------------------------------------- round trips

  predicate Word(s: string) {
    s != "" && forall i :: 0 <= i < |s| ==> !IsSpace(s[i])
  }

  lemma {:induction false} TakeWholeWord(word: string, rest: string)
    requires forall i :: 0 <= i < |word| ==> !IsSpace(word[i])
    requires rest == "" || IsSpace(rest[0])
    ensures TakeWord(word + rest) == (word, rest)
  {
    if word == "" {
      assert word + rest == rest;
    } else {
      assert (word + rest)[1..] == word[1..] + rest;
      TakeWholeWord(word[1..], rest);
      assert word == [word[0]] + word[1..];
    }
  }

  lemma NextWordIs(word: string, rest: string)
    requires Word(word) && (rest == "" || IsSpace(rest[0]))
    ensures NextWord(word + rest) == (word, rest)
    ensures NextWord(" " + (word + rest)) == (word, rest)
  {
    TakeWholeWord(word, rest);
    assert (" " + (word + rest))[1..] == word + rest;
  }

  lemma StripAppended(prefix: string, x: string)
    ensures StripPrefix(prefix + x, prefix) == Some(x)
  {
    assert (prefix + x)[|prefix|..] == x;
  }

  lemma BoolWord(prefix: string, value: bool)
    requires Word(prefix)
    ensures Word(prefix + BoolDigit(value)) && ParseBool(BoolDigit(value)) == Some(value)
  {
  }

  lemma DeviceWord(prefix: string, device: Option<HapticsDevice>)
    requires Word(prefix)
    ensures Word(prefix + DeviceField(device)) && ParseDevice(DeviceField(device)) == Some(device)
  {
    var field := DeviceField(device);
    assert forall i :: 0 <= i < |field| ==> !IsSpace(field[i]);
  }

  lemma FieldsRoundTrip(state: ControlState)
    ensures ParseStateFields(Fields(state)) == Ok(state)
  {
    BoolWord("uhid_ready=", state.uhidReady);
    BoolWord("needs_config=", state.needsConfig);
    DeviceWord("bt_haptics=", state.btHaptics);
    StripAppended("uhid_ready=", BoolDigit(state.uhidReady));
    StripAppended("needs_config=", BoolDigit(state.needsConfig));
    StripAppended("bt_haptics=", DeviceField(state.btHaptics));
    ThreeWords("uhid_ready=" + BoolDigit(state.uhidReady), "needs_config=" + BoolDigit(state.needsConfig),
               "bt_haptics=" + DeviceField(state.btHaptics));
    hide StripPrefix, Word, BoolDigit, DeviceField, ParseBool, ParseDevice, NextWord;
  }

  lemma ThreeWords(a: string, b: string, c: string)
    requires Word(a) && Word(b) && Word(c)
    ensures var (first, rest) := NextWord(a + " " + (b + " " + c));
            var (second, rest2) := NextWord(rest);
            var (third, rest3) := NextWord(rest2);
            first == a && second == b && third == c && NextWord(rest3).0 == ""
  {
    hide NextWord, Word;
    var tail := b + (" " + c);
    assert a + " " + (b + " " + c) == a + (" " + tail);
    NextWordIs(a, " " + tail);
    NextWordIs(b, " " + c);
    NextWordIs(c, "");
    assert c + "" == c;
  }

  /** Every hello and state packet parses back to the state it was made from. */
  lemma StateRoundTrip(state: ControlState)
    ensures ParseServerPacket(HelloPacket(state)) == Ok(Hello(state))
    ensures ParseServerPacket(StatePacket(state)) == Ok(State(state))
  {
    FieldsRoundTrip(state);
  }

  // --------------------------------------------------------------- requests

  const SWITCH_CONFIG_PREFIX: string := "switch-config\0"

  function EncodeRequest(config: ActiveConfig): string {
    SWITCH_CONFIG_PREFIX + (config.source + ['\0'] + config.content)
  }

  /** How many bytes a character takes in UTF-8. */
  function CharSize(c: char): nat {
    if c as int < 0x80 then 1 else if c as int < 0x800 then 2 else if c as int < 0x1_0000 then 3 else 4
  }

  /** The size of a text on the wire. */
  function ByteSize(s: string): nat {
    if s == "" then 0 else ByteSize(s[..|s| - 1]) + CharSize(s[|s| - 1])
  }

  function ParseRequest(packet: string): Result<ActiveConfig> {
    var payload := StripPrefix(packet, SWITCH_CONFIG_PREFIX);
    if payload.None? then Err("unknown command") else
    match SplitAt(payload.value, '\0')
    case None => Err("switch-config source delimiter is missing")
    case Some((source, content)) =>
      if source == "" then Err("switch-config source is empty")
      else if ByteSize(source) > MAX_CONFIG_SOURCE_SIZE then Err("switch-config source exceeds size limit")
      else if ByteSize(content) > MAX_CONFIG_FILE_SIZE then Err("Config content exceeds byte limit")
      else Ok(ActiveConfig(source, content))
  }

  lemma {:induction false} SplitAtFirst(before: string, c: char, after: string)
    requires c !in before
    ensures SplitAt(before + [c] + after, c) == Some((before, after))
  {
    var s := before + [c] + after;
    if before == "" {
      assert s[1..] == after;
    } else {
      SplitAtFirst(before[1..], c, after);
      assert s[1..] == before[1..] + [c] + after;
      assert before == [before[0]] + before[1..];
    }
  }

  predicate Sendable(config: ActiveConfig) {
    && config.source != "" && ByteSize(config.source) <= MAX_CONFIG_SOURCE_SIZE && '\0' !in config.source
    && ByteSize(config.content) <= MAX_CONFIG_FILE_SIZE
  }

  /** A request survives the wire exactly when its source is a proper name and both parts are in bounds. */
  lemma RequestRoundTrip(config: ActiveConfig)
    ensures ParseRequest(EncodeRequest(config)) == Ok(config) <==> Sendable(config)
  {
    var payload := config.source + ['\0'] + config.content;
    StripAppended(SWITCH_CONFIG_PREFIX, payload);
    if '\0' !in config.source {
      SplitAtFirst(config.source, '\0', config.content);
    }
  }

  // ---------------------------------------------------------------- replies

  /** The packets that tell a client the server's state. */
  predicate IsStatus(packet: string) {
    ParseServerPacket(packet).Ok?
    && (ParseServerPacket(packet).value.Hello? || ParseServerPacket(packet).value.State?)
  }

  datatype Answer = Accepted | Refused(code: string, message: string)

  function AnswerPacket(answer: Answer): string {
    match answer
    case Accepted => "ok switch-config"
    case Refused(code, message) => "error " + (code + (" " + message))
  }

  /** No answer can be mistaken for a state packet. */
  lemma AnswersAreNotStatus(answer: Answer)
    ensures !IsStatus(AnswerPacket(answer))
  {
    var packet := AnswerPacket(answer);
    assert packet[0] == 'o' || packet[0] == 'e';
    assert !("hello " <= packet) && !("state " <= packet);
  }

  /** The packet parses back to this state. */
  predicate Tells(packet: string, state: ControlState) {
    ParseServerPacket(packet) == Ok(Hello(state)) || ParseServerPacket(packet) == Ok(State(state))
  }

  lemma HelloTells(state: ControlState)
    ensures IsStatus(HelloPacket(state)) && Tells(HelloPacket(state), state)
  {
    StateRoundTrip(state);
    hide HelloPacket, StatePacket, ParseServerPacket;
  }

  lemma StateTells(state: ControlState)
    ensures IsStatus(StatePacket(state)) && Tells(StatePacket(state), state)
  {
    StateRoundTrip(state);
    hide HelloPacket, StatePacket, ParseServerPacket;
  }

  lemma ParsedIsSendable(packet: string)
    requires ParseRequest(packet).Ok?
    ensures Sendable(ParseRequest(packet).value)
  {
  }

  // ---------------------------------------------------------------- the server

  const MAX_CONTROL_CLIENTS: nat := 16

  const MAX_ACCEPTS_PER_WAKE: nat := 16

  type Fd = nat

  /** One accept; the greeting may not arrive and the new client may not be watchable. */
  datatype Accept = Connected(fd: Fd, greeted: bool, watched: bool) | NoMore | Interrupted | AcceptFailed

  datatype Received = Packet(text: string, utf8: bool) | Closed | NothingYet | Oversized | Broken

  /** One event of a wake-up; `delivered` is whether a reply to it, if there is one, arrives. */
  datatype Ready =
    | Listener(accepts: seq<Accept>)
    | Client(fd: Fd, hangUp: bool, readable: bool, received: Received, delivered: bool)

  datatype PendingRequest = PendingRequest(client: Fd, config: ActiveConfig)

  /** The clients after some accepts, and whether the listener is still sound. */
  function Welcomed(clients: set<Fd>, accepts: seq<Accept>): (set<Fd>, bool)
    decreases |accepts|
  {
    if accepts == [] then (clients, true) else
    match accepts[0]
    case NoMore => (clients, true)
    case AcceptFailed => (clients, false)
    case Interrupted => Welcomed(clients, accepts[1..])
    case Connected(fd, greeted, watched) =>
      Welcomed(if |clients| < MAX_CONTROL_CLIENTS && greeted && watched then clients + {fd} else clients, accepts[1..])
  }

  function FirstAccepts(accepts: seq<Accept>): seq<Accept> {
    if |accepts| <= MAX_ACCEPTS_PER_WAKE then accepts else accepts[..MAX_ACCEPTS_PER_WAKE]
  }

  /** A packet that ends its sender's connection whatever the reply. */
  predicate Fatal(received: Received) {
    match received
    case Packet(_, utf8) => !utf8
    case NothingYet => false
    case _ => true
  }

  function Rejection(received: Received): Option<string> {
    match received
    case Packet(text, utf8) =>
      if !utf8 then Some("request is not UTF-8") else
      (match ParseRequest(text) case Ok(_) => None case Err(message) => Some(message))
    case Oversized => Some("control packet exceeds size limit")
    case _ => None
  }

  /** The received packet is a well-formed request for this configuration. */
  predicate Carries(received: Received, config: ActiveConfig) {
    received.Packet? && received.utf8 && ParseRequest(received.text) == Ok(config)
  }

  datatype Progress = Progress(clients: set<Fd>, doomed: set<Fd>, requests: seq<PendingRequest>, ok: bool)

  /** One event of a wake-up: after the first request the other clients are left for the next wake-up. */
  function Progressed(p: Progress, event: Ready): Progress {
    if !p.ok then p else
    match event
    case Listener(accepts) =>
      var (clients, ok) := Welcomed(p.clients, FirstAccepts(accepts));
      p.(clients := clients, ok := ok)
    case Client(fd, hangUp, readable, received, delivered) =>
      if fd !in p.clients then p
      else if hangUp then p.(doomed := p.doomed + {fd})
      else if !readable || p.requests != [] then p
      else Progress(if Rejection(received).Some? && !delivered then p.clients - {fd} else p.clients,
                    if Fatal(received) then p.doomed + {fd} else p.doomed,
                    if received.Packet? && received.utf8 && ParseRequest(received.text).Ok? then
                      p.requests + [PendingRequest(fd, ParseRequest(received.text).value)] else p.requests,
                    true)
  }

  function Handled(clients: set<Fd>, ready: seq<Ready>): Progress {
    if ready == [] then Progress(clients, {}, [], true)
    else Progressed(Handled(clients, ready[..|ready| - 1]), ready[|ready| - 1])
  }

  const BUSY: Answer := Refused("busy", "control client limit reached")

  /** The packets that these accepts get through to the newcomers: a greeting, or word that the server is full. */
  function Greetings(clients: set<Fd>, accepts: seq<Accept>, state: ControlState): seq<(Fd, string)>
    decreases |accepts|
  {
    if accepts == [] || accepts[0].NoMore? || accepts[0].AcceptFailed? then [] else
    if accepts[0].Interrupted? then Greetings(clients, accepts[1..], state) else
    var Connected(fd, greeted, watched) := accepts[0];
    var full := |clients| >= MAX_CONTROL_CLIENTS;
    (if greeted then [(fd, if full then AnswerPacket(BUSY) else HelloPacket(state))] else [])
    + Greetings(if !full && greeted && watched then clients + {fd} else clients, accepts[1..], state)
  }

  /** The packets that one event gets through to clients. */
  function SaidAt(p: Progress, event: Ready, state: ControlState): seq<(Fd, string)> {
    if !p.ok then [] else
    match event
    case Listener(accepts) => Greetings(p.clients, FirstAccepts(accepts), state)
    case Client(fd, hangUp, readable, received, delivered) =>
      if fd in p.clients && !hangUp && readable && p.requests == [] && delivered && Rejection(received).Some?
      then [(fd, AnswerPacket(Refused("protocol", Rejection(received).value)))] else []
  }

  function Said(clients: set<Fd>, ready: seq<Ready>, state: ControlState): seq<(Fd, string)> {
    if ready == [] then [] else
    var n := |ready| - 1;
    Said(clients, ready[..n], state) + SaidAt(Handled(clients, ready[..n]), ready[n], state)
  }

  /** Every one of these clients got this packet once, and nothing else was said. */
  ghost predicate Announced(before: seq<(Fd, string)>, after: seq<(Fd, string)>, to: set<Fd>, packet: string) {
    && before <= after && |after| == |before| + |to|
    && forall fd :: fd in to <==> (fd, packet) in after[|before|..]
  }

  /** Of all clients these are left to be told, and of the others the reachable ones were reached. */
  ghost predicate Halfway(all: set<Fd>, left: set<Fd>, clients: set<Fd>, reached: set<Fd>, reachable: Fd -> bool) {
    && left <= all && clients == left + reached && left !! reached
    && forall fd :: fd in reached <==> fd in all && fd !in left && reachable(fd)
  }

  predicate AllTold(to: set<Fd>, told: map<Fd, string>, packet: string) {
    forall fd :: fd in to ==> fd in told && told[fd] == packet
  }

  class ControlServer {
    var clients: set<Fd>
    var state: ControlState
    /** The last hello or state packet that reached each descriptor. */
    ghost var told: map<Fd, string>
    /** Every packet that reached a descriptor. */
    ghost var said: seq<(Fd, string)>

    /** At most 16 clients, each of which knows exactly the current state. */
    ghost predicate Valid()
      reads this
    {
      && |clients| <= MAX_CONTROL_CLIENTS
      && forall fd :: fd in clients ==> fd in told && Tells(told[fd], state)
    }

    constructor (state: ControlState)
      ensures Valid() && clients == {} && said == [] && this.state == state
    {
      clients, told, said := {}, map[], [];
      this.state := state;
    }

    /** A non-blocking send, which arrives or fails as the environment decides. */
    method SendPacket(fd: Fd, packet: string, delivered: bool) returns (ok: bool)
      modifies this`told, this`said
      ensures ok == delivered
      ensures said == if delivered then old(said) + [(fd, packet)] else old(said)
      ensures told == if delivered && IsStatus(packet) then old(told)[fd := packet] else old(told)
    {
      if delivered && IsStatus(packet) {
        told := told[fd := packet];
      }
      said := if delivered then said + [(fd, packet)] else said;
      return delivered;
    }

    /** Tells every client the new state and drops exactly those it does not reach. */
    method SetState(next: ControlState, reachable: Fd -> bool)
      requires Valid()
      modifies this
      ensures Valid() && state == next
      ensures clients == if old(state) == next then old(clients) else set fd | fd in old(clients) && reachable(fd)
      ensures old(state) == next ==> told == old(told) && said == old(said)
      ensures old(state) != next ==> Announced(old(said), said, clients, StatePacket(next))
    {
      hide StatePacket, IsStatus, Tells;
      if state == next {
        return;
      }
      state := next;
      var packet := StatePacket(next);
      StateTells(next);
      Broadcast(packet, reachable);
    }

    /** Sends one status packet to every client and drops those it does not reach. */
    method Broadcast(packet: string, reachable: Fd -> bool)
      requires IsStatus(packet)
      modifies this`clients, this`told, this`said
      ensures Announced(old(said), said, clients, packet)
      ensures clients == (set fd | fd in old(clients) && reachable(fd)) && |clients| <= |old(clients)|
      ensures forall fd :: fd in clients ==> fd in told && told[fd] == packet
    {
      hide IsStatus, Announced, AllTold, Halfway;
      NobodyTold(said, packet);
      NoneToldYet(told, packet);
      HalfwayStart(clients, reachable);
      var left := clients;
      ghost var reached: set<Fd> := {};
      while left != {}
        invariant Halfway(old(clients), left, clients, reached, reachable) && |clients| <= |old(clients)|
        invariant AllTold(reached, told, packet) && Announced(old(said), said, reached, packet)
      {
        var fd :| fd in left;
        HalfwayNext(old(clients), left, clients, reached, reachable, fd);
        OneMoreTold(old(said), said, reached, fd, packet);
        AllToldNext(reached, told, fd, packet);
        left := left - {fd};
        var ok := TellOne(fd, packet, reachable(fd));
        reached := if ok then reached + {fd} else reached;
      }
      HalfwayEnd(old(clients), clients, reached, reachable);
      EachTold(reached, told, packet);
    }

    /** One client is told, or dropped when it cannot be. */
    method TellOne(fd: Fd, packet: string, delivered: bool) returns (ok: bool)
      requires IsStatus(packet)
      modifies this`clients, this`told, this`said
      ensures ok == delivered && |clients| <= |old(clients)|
      ensures clients == if ok then old(clients) else old(clients) - {fd}
      ensures told == if ok then old(told)[fd := packet] else old(told)
      ensures said == if ok then old(said) + [(fd, packet)] else old(said)
    {
      ok := SendPacket(fd, packet, delivered);
      if !ok {
        Drop(fd);
      }
    }

    method Drop(fd: Fd)
      modifies this`clients
      ensures clients == old(clients) - {fd} && |clients| <= |old(clients)|
    {
      Fewer(clients, fd);
      clients := clients - {fd};
    }

    method Reply(client: Fd, answer: Answer, delivered: bool)
      requires Valid()
      modifies this`clients, this`told, this`said
      ensures Valid() && told == old(told)
      ensures said == if delivered then old(said) + [(client, AnswerPacket(answer))] else old(said)
      ensures clients == if delivered then old(clients) else old(clients) - {client}
    {
      AnswersAreNotStatus(answer);
      var ok := SendPacket(client, AnswerPacket(answer), delivered);
      if !ok {
        Drop(client);
      }
    }

    method AcceptClients(accepts: seq<Accept>) returns (ok: bool)
      requires Valid()
      modifies this`clients, this`told, this`said
      ensures Valid() && (clients, ok) == Welcomed(old(clients), FirstAccepts(accepts))
      ensures said == old(said) + Greetings(old(clients), FirstAccepts(accepts), state)
    {
      hide ControlServer.Valid, HelloPacket, AnswerPacket;
      ghost var heard := FirstAccepts(accepts);
      for i := 0 to |accepts|
        invariant Valid() && i <= |heard|
        invariant Welcomed(clients, heard[i..]) == Welcomed(old(clients), heard)
        invariant said + Greetings(clients, heard[i..], state) == old(said) + Greetings(old(clients), heard, state)
      {
        if i == MAX_ACCEPTS_PER_WAKE {
          return true;
        }
        assert heard[i..][0] == accepts[i] && heard[i..][1..] == heard[i + 1..];
        match accepts[i] {
          case NoMore => return true;
          case Interrupted =>
          case AcceptFailed => return false;
          case Connected(fd, greeted, watched) => Greet(fd, greeted, watched);
        }
      }
      return true;
    }

    /** Greets a new connection; a client that cannot be greeted, watched or fitted in is closed again. */
    method Greet(fd: Fd, greeted: bool, watched: bool)
      requires Valid()
      modifies this`clients, this`told, this`said
      ensures Valid()
      ensures said == old(said) + if !greeted then [] else
                [(fd, if |old(clients)| >= MAX_CONTROL_CLIENTS then AnswerPacket(BUSY) else HelloPacket(state))]
      ensures clients == if |old(clients)| < MAX_CONTROL_CLIENTS && greeted && watched then old(clients) + {fd} else old(clients)
    {
      hide HelloPacket, IsStatus, Tells, AnswerPacket;
      HelloTells(state);
      if |clients| >= MAX_CONTROL_CLIENTS {
        Turned(fd, greeted);
        return;
      }
      var arrived := SendPacket(fd, HelloPacket(state), greeted);
      if arrived && watched {
        clients := clients + {fd};
      }
    }

    /** Told that the server is full; nobody minds if the message is lost. */
    method Turned(fd: Fd, arrives: bool)
      requires Valid()
      modifies this`told, this`said
      ensures Valid() && told == old(told)
      ensures said == if arrives then old(said) + [(fd, AnswerPacket(BUSY))] else old(said)
    {
      AnswersAreNotStatus(BUSY);
      var _ := SendPacket(fd, AnswerPacket(BUSY), arrives);
    }

    /** One wake-up: at most one request is taken, whatever is ready. */
    method DrainRequests(ready: seq<Ready>) returns (ok: bool, requests: seq<PendingRequest>)
      requires Valid()
      modifies this`clients, this`told, this`said
      ensures Valid()
      ensures said == old(said) + Said(old(clients), ready, state)
      ensures var p := Handled(old(clients), ready);
              && ok == p.ok
              && (if ok then requests == p.requests && clients == p.clients - p.doomed
                  else requests == [] && clients == p.clients)
    {
      hide Welcomed, ParseRequest, Rejection, Fatal, ControlServer.Valid, Greetings, AnswerPacket, Handled, Said;
      ok, requests := true, [];
      var remove: set<Fd> := {};
      NothingHandled(clients, ready, state);
      for i := 0 to |ready|
        invariant Valid() && ok
        invariant Progress(clients, remove, requests, true) == Handled(old(clients), ready[..i])
        invariant said == old(said) + Said(old(clients), ready[..i], state)
      {
        OneEventLater(old(clients), ready, state, i);
        match ready[i] {
          case Listener(accepts) =>
            ok := AcceptClients(accepts);
            if !ok {
              FailedStays(old(clients), ready, i + 1);
              return false, [];
            }
          case Client(fd, hangUp, readable, received, delivered) =>
            if fd in clients {
              if hangUp {
                remove := remove + {fd};
              } else if readable && requests == [] {
                var gone, request := Serve(fd, received, delivered);
                requests := if request.Some? then requests + [request.value] else requests;
                remove := if gone then remove + {fd} else remove;
              }
            }
        }
      }
      assert ready[..|ready|] == ready;
      DropAll(remove);
    }

    method DropAll(doomed: set<Fd>)
      requires Valid()
      modifies this`clients
      ensures Valid() && clients == old(clients) - doomed
    {
      hide Tells, IsStatus;
      var remove := doomed;
      while remove != {}
        invariant Valid() && remove <= doomed
        invariant forall fd :: fd in clients <==> fd in old(clients) && (fd !in doomed || fd in remove)
      {
        var fd :| fd in remove;
        remove := remove - {fd};
        Drop(fd);
      }
    }

    /** What one packet from a client leads to. */
    method Serve(fd: Fd, received: Received, delivered: bool) returns (gone: bool, request: Option<PendingRequest>)
      requires Valid()
      modifies this`clients, this`told, this`said
      ensures Valid() && told == old(told) && gone == Fatal(received)
      ensures said == if Rejection(received).Some? && delivered
                      then old(said) + [(fd, AnswerPacket(Refused("protocol", Rejection(received).value)))] else old(said)
      ensures clients == if Rejection(received).Some? && !delivered then old(clients) - {fd} else old(clients)
      ensures request == if received.Packet? && received.utf8 && ParseRequest(received.text).Ok?
                         then Some(PendingRequest(fd, ParseRequest(received.text).value)) else None
    {
      gone, request := false, None;
      match received {
        case Packet(text, utf8) =>
          if !utf8 {
            Reply(fd, Refused("protocol", "request is not UTF-8"), delivered);
            return true, None;
          }
          match ParseRequest(text) {
            case Ok(config) => request := Some(PendingRequest(fd, config));
            case Err(message) => Reply(fd, Refused("protocol", message), delivered);
          }
        case Closed => gone := true;
        case NothingYet =>
        case Oversized =>
          Reply(fd, Refused("protocol", "control packet exceeds size limit"), delivered);
          gone := true;
        case Broken => gone := true;
      }
    }
  }

  /** After a listener failure the rest of the wake-up is not looked at. */
  lemma {:induction false} FailedStays(clients: set<Fd>, ready: seq<Ready>, i: nat)
    requires i <= |ready| && !Handled(clients, ready[..i]).ok
    ensures Handled(clients, ready) == Handled(clients, ready[..i])
    ensures forall state :: Said(clients, ready, state) == Said(clients, ready[..i], state)
    decreases |ready|
  {
    if i == |ready| {
      assert ready[..i] == ready;
    } else {
      var init := ready[..|ready| - 1];
      assert init[..i] == ready[..i];
      FailedStays(clients, init, i);
    }
  }

  lemma HalfwayStart(all: set<Fd>, reachable: Fd -> bool)
    ensures Halfway(all, all, all, {}, reachable)
  {
  }

  lemma HalfwayNext(all: set<Fd>, left: set<Fd>, clients: set<Fd>, reached: set<Fd>, reachable: Fd -> bool, fd: Fd)
    requires Halfway(all, left, clients, reached, reachable) && fd in left
    ensures fd !in reached
    ensures if reachable(fd) then Halfway(all, left - {fd}, clients, reached + {fd}, reachable)
            else Halfway(all, left - {fd}, clients - {fd}, reached, reachable)
  {
  }

  lemma HalfwayEnd(all: set<Fd>, clients: set<Fd>, reached: set<Fd>, reachable: Fd -> bool)
    requires Halfway(all, {}, clients, reached, reachable)
    ensures clients == reached && clients == set fd | fd in all && reachable(fd)
  {
  }

  lemma NoneToldYet(told: map<Fd, string>, packet: string)
    ensures AllTold({}, told, packet)
  {
  }

  lemma AllToldNext(to: set<Fd>, told: map<Fd, string>, fd: Fd, packet: string)
    requires AllTold(to, told, packet)
    ensures AllTold(to + {fd}, told[fd := packet], packet)
  {
  }

  lemma EachTold(to: set<Fd>, told: map<Fd, string>, packet: string)
    requires AllTold(to, told, packet)
    ensures forall fd :: fd in to ==> fd in told && told[fd] == packet
  {
  }

  lemma NobodyTold(before: seq<(Fd, string)>, packet: string)
    ensures Announced(before, before, {}, packet)
  {
  }

  lemma OneMoreTold(before: seq<(Fd, string)>, after: seq<(Fd, string)>, to: set<Fd>, fd: Fd, packet: string)
    requires Announced(before, after, to, packet) && fd !in to
    ensures Announced(before, after + [(fd, packet)], to + {fd}, packet)
  {
    assert (after + [(fd, packet)])[|before|..] == after[|before|..] + [(fd, packet)];
  }

  lemma NothingHandled(clients: set<Fd>, ready: seq<Ready>, state: ControlState)
    ensures Handled(clients, ready[..0]) == Progress(clients, {}, [], true) && Said(clients, ready[..0], state) == []
  {
  }

  /** One event of a wake-up is looked at. */
  lemma OneEventLater(clients: set<Fd>, ready: seq<Ready>, state: ControlState, i: nat)
    requires i < |ready|
    ensures Handled(clients, ready[..i + 1]) == Progressed(Handled(clients, ready[..i]), ready[i])
    ensures Said(clients, ready[..i + 1], state)
            == Said(clients, ready[..i], state) + SaidAt(Handled(clients, ready[..i]), ready[i], state)
  {
    assert ready[..i + 1][..i] == ready[..i];
  }

  lemma Fewer(s: set<Fd>, fd: Fd)
    ensures |s - {fd}| <= |s|
  {
    if fd in s {
      assert s == (s - {fd}) + {fd};
    } else {
      assert s - {fd} == s;
    }
  }

  /** The event is a request that its sender, a client in good standing, really sent. */
  predicate Asks(event: Ready, r: PendingRequest) {
    event.Client? && event.fd == r.client && event.readable && !event.hangUp && Carries(event.received, r.config)
  }

  /** A drain takes at most one request: the first well-formed one in event order, and a genuine one. */
  lemma {:induction false} RequestIsGenuine(clients: set<Fd>, ready: seq<Ready>)
    ensures var requests := Handled(clients, ready).requests;
            && |requests| <= 1
            && (requests != [] ==> Sendable(requests[0].config) && TakenFrom(clients, ready, requests[0]))
  {
    hide ParseRequest, Welcomed, Rejection, Fatal, Sendable;
    if ready != [] {
      var init, last := ready[..|ready| - 1], ready[|ready| - 1];
      RequestIsGenuine(clients, init);
      var before, p := Handled(clients, init), Handled(clients, ready);
      if before.requests != [] {
        var i :| 0 <= i < |init| && Asks(init[i], before.requests[0]) && Handled(clients, init[..i]).requests == [];
        assert ready[i] == init[i] && ready[..i] == init[..i];
      } else if p.requests != [] {
        ParsedIsSendable(last.received.text);
        assert Asks(ready[|ready| - 1], p.requests[0]);
      }
    }
  }

  predicate TakenFrom(clients: set<Fd>, ready: seq<Ready>, r: PendingRequest) {
    exists i :: 0 <= i < |ready| && Asks(ready[i], r) && Handled(clients, ready[..i]).requests == []
  }

  datatype ServerOp =
    | Wake(ready: seq<Ready>)
    | NewState(state: ControlState, reachable: Fd -> bool)
    | Say(client: Fd, answer: Answer, delivered: bool)

  /** Any run of wake-ups, state changes and replies, with any sends failing. */
  method RunServer(initial: ControlState, ops: seq<ServerOp>) returns (server: ControlServer)
    ensures |server.clients| <= MAX_CONTROL_CLIENTS
    ensures forall fd :: fd in server.clients ==> fd in server.told && Tells(server.told[fd], server.state)
  {
    server := new ControlServer(initial);
    for i := 0 to |ops|
      invariant fresh(server) && server.Valid()
    {
      match ops[i] {
        case Wake(ready) => var _, _ := server.DrainRequests(ready);
        case NewState(state, reachable) => server.SetState(state, reachable);
        case Say(client, answer, delivered) => server.Reply(client, answer, delivered);
      }
    }
  }
}
