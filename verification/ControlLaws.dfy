/** Whom a wake-up of the control server serves, admits and drops, event by event (src/control/server.rs). */
module ControlLaws {
  import opened Model
  import opened Control

  // ----------------------------------------------------------------- accepts

  /** How many of these accepts are made: up to the first that finds nobody or fails, and at most 16. */
  function Heard(accepts: seq<Accept>, i: nat): (n: nat)
    requires i <= |accepts| && i <= 16
    ensures i <= n <= |accepts| && n <= 16
    ensures forall j :: i <= j < n ==> accepts[j].Connected? || accepts[j].Interrupted?
    ensures n < |accepts| && n < 16 ==> accepts[n].NoMore? || accepts[n].AcceptFailed?
    decreases 16 - i
  {
    if i == |accepts| || i == 16 || accepts[i].NoMore? || accepts[i].AcceptFailed? then i else Heard(accepts, i + 1)
  }

  /** The clients after the first `n` accepts: while there are fewer than 16, whoever is greeted and watched joins. */
  function Joined(clients: set<Fd>, accepts: seq<Accept>, n: nat): set<Fd>
    requires n <= |accepts|
  {
    if n == 0 then clients else
    var before, accept := Joined(clients, accepts, n - 1), accepts[n - 1];
    if accept.Connected? && accept.greeted && accept.watched && |before| < 16 then before + {accept.fd} else before
  }

  predicate ListenerFails(accepts: seq<Accept>) {
    Heard(accepts, 0) < |accepts| && Heard(accepts, 0) < 16 && accepts[Heard(accepts, 0)].AcceptFailed?
  }

  /** One accept of those that are made. */
  lemma WelcomedStep(clients: set<Fd>, heard: seq<Accept>, i: nat)
    requires i < |heard|
    ensures Welcomed(clients, heard[i..]) ==
            if heard[i].NoMore? then (clients, true)
            else if heard[i].AcceptFailed? then (clients, false)
            else if heard[i].Connected? && heard[i].greeted && heard[i].watched && |clients| < 16 then
              Welcomed(clients + {heard[i].fd}, heard[i + 1..])
            else Welcomed(clients, heard[i + 1..])
  {
    assert heard[i..][0] == heard[i] && heard[i..][1..] == heard[i + 1..];
  }

  lemma FirstAre(accepts: seq<Accept>)
    ensures var heard := FirstAccepts(accepts);
            && |heard| == (if |accepts| <= 16 then |accepts| else 16)
            && forall i :: 0 <= i < |heard| ==> heard[i] == accepts[i]
  {
  }

  lemma WelcomedNobody(clients: set<Fd>, heard: seq<Accept>)
    ensures Welcomed(clients, heard[|heard|..]) == (clients, true)
  {
  }

  lemma JoinedNext(clients: set<Fd>, accepts: seq<Accept>, i: nat)
    requires i < Heard(accepts, 0)
    ensures var heard := FirstAccepts(accepts);
            i < |heard|
            && Welcomed(Joined(clients, accepts, i), heard[i..]) == Welcomed(Joined(clients, accepts, i + 1), heard[i + 1..])
  {
    hide Welcomed, FirstAccepts, Heard;
    FirstAre(accepts);
    WelcomedStep(Joined(clients, accepts, i), FirstAccepts(accepts), i);
  }

  lemma NobodyElse(clients: set<Fd>, accepts: seq<Accept>)
    ensures var n, heard := Heard(accepts, 0), FirstAccepts(accepts);
            n <= |heard| && Welcomed(clients, heard[n..]) == (clients, !ListenerFails(accepts))
  {
    hide Welcomed, FirstAccepts;
    var n, heard := Heard(accepts, 0), FirstAccepts(accepts);
    FirstAre(accepts);
    if n < |heard| {
      WelcomedStep(clients, heard, n);
    } else {
      WelcomedNobody(clients, heard);
    }
  }

  lemma {:induction false} WelcomedFrom(clients: set<Fd>, accepts: seq<Accept>, i: nat)
    requires i <= Heard(accepts, 0)
    ensures i <= |FirstAccepts(accepts)|
    ensures Welcomed(Joined(clients, accepts, i), FirstAccepts(accepts)[i..])
            == (Joined(clients, accepts, Heard(accepts, 0)), !ListenerFails(accepts))
    decreases |accepts| - i
  {
    hide Welcomed, Heard, FirstAccepts, Joined, ListenerFails;
    FirstAre(accepts);
    if i < Heard(accepts, 0) {
      JoinedNext(clients, accepts, i);
      WelcomedFrom(clients, accepts, i + 1);
    } else {
      NobodyElse(Joined(clients, accepts, i), accepts);
    }
  }

  /** One listener event admits those clients and no others, and fails exactly when an accept that is made fails. */
  lemma AcceptLaw(clients: set<Fd>, accepts: seq<Accept>)
    ensures Welcomed(clients, FirstAccepts(accepts))
            == (Joined(clients, accepts, Heard(accepts, 0)), !ListenerFails(accepts))
  {
    WelcomedFrom(clients, accepts, 0);
    assert FirstAccepts(accepts)[0..] == FirstAccepts(accepts);
  }

  /** Nobody is dropped for a newcomer, no one joins beyond 16, and a greeted, watched newcomer is left out only at 16. */
  lemma {:induction false} JoinedBounds(clients: set<Fd>, accepts: seq<Accept>, n: nat)
    requires n <= |accepts|
    ensures var joined := Joined(clients, accepts, n);
            && clients <= joined && (|clients| <= 16 ==> |joined| <= 16)
            && (forall fd :: fd in joined && fd !in clients ==> exists i :: 0 <= i < n && accepts[i] == Connected(fd, true, true))
            && (forall i :: 0 <= i < n && accepts[i].Connected? && accepts[i].greeted && accepts[i].watched ==>
                  accepts[i].fd in joined || |joined| >= 16)
  {
    if n > 0 {
      JoinedBounds(clients, accepts, n - 1);
      var before, joined := Joined(clients, accepts, n - 1), Joined(clients, accepts, n);
      Grown(before, joined, accepts[n - 1]);
    }
  }

  lemma Grown(before: set<Fd>, joined: set<Fd>, accept: Accept)
    requires joined == before || (accept.Connected? && |before| < 16 && joined == before + {accept.fd})
    ensures |before| <= |joined| && (|before| <= 16 ==> |joined| <= 16)
  {
    if joined != before {
      assert joined - {accept.fd} == before;
    }
  }

  // ----------------------------------------------------------- the wake-up

  /** A packet that is answered with an error: not a request, not text, or too long. */
  predicate Rejected(received: Received) {
    || received.Oversized?
    || (received.Packet? && (!received.utf8 || ParseRequest(received.text).Err?))
  }

  /** What ends a connection whatever is answered. */
  predicate Ends(received: Received) {
    received.Closed? || received.Oversized? || received.Broken? || (received.Packet? && !received.utf8)
  }

  /** The sender of an event is served: it is registered, has not hung up, and has something to read. */
  predicate Served(event: Ready, clients: set<Fd>) {
    event.Client? && event.fd in clients && !event.hangUp && event.readable
  }

  /**
   * Who is registered after these events: whoever joined, without those of the first `cut` events whose
   * rejection could not be delivered.
   */
  function Registered(clients: set<Fd>, ready: seq<Ready>, cut: nat): set<Fd> {
    if ready == [] then clients else
    var n := |ready| - 1;
    var before, event := Registered(clients, ready[..n], cut), ready[n];
    match event
    case Listener(accepts) => Joined(before, accepts, Heard(accepts, 0))
    case Client(fd, _, _, received, delivered) =>
      if n < cut && Served(event, before) && Rejected(received) && !delivered then before - {fd} else before
  }

  /** Event `i` asks for this configuration and its sender is registered at that event. */
  predicate Eligible(clients: set<Fd>, ready: seq<Ready>, i: nat, r: PendingRequest) {
    i < |ready| && Asks(ready[i], r) && r.client in Registered(clients, ready[..i], i)
  }

  /** Event `i` ends this client's connection: it hung up, or one of the first `cut` events was its last packet. */
  predicate Dooms(clients: set<Fd>, ready: seq<Ready>, cut: nat, i: nat, fd: Fd) {
    && i < |ready| && ready[i].Client? && ready[i].fd == fd && fd in Registered(clients, ready[..i], cut)
    && (ready[i].hangUp || (i < cut && ready[i].readable && Ends(ready[i].received)))
  }

  lemma {:induction false} CutLater(clients: set<Fd>, ready: seq<Ready>, cut: nat, cut': nat)
    requires |ready| <= cut && |ready| <= cut'
    ensures Registered(clients, ready, cut) == Registered(clients, ready, cut')
  {
    if ready != [] {
      CutLater(clients, ready[..|ready| - 1], cut, cut');
    }
  }

  /** `cut` is the first eligible event, or the number of events if none is. */
  ghost predicate FirstEligible(clients: set<Fd>, ready: seq<Ready>, cut: nat) {
    && cut <= |ready|
    && (forall i, r :: 0 <= i < cut ==> !Eligible(clients, ready, i, r))
    && (cut < |ready| ==> exists r :: Eligible(clients, ready, cut, r))
  }

  ghost predicate Doomed(clients: set<Fd>, ready: seq<Ready>, cut: nat, fd: Fd) {
    exists i :: 0 <= i < |ready| && Dooms(clients, ready, cut, i, fd)
  }

  lemma EligibleEarlier(clients: set<Fd>, ready: seq<Ready>, i: nat, r: PendingRequest)
    requires i + 1 < |ready|
    ensures Eligible(clients, ready[..|ready| - 1], i, r) <==> Eligible(clients, ready, i, r)
  {
    hide Registered, Asks;
    assert ready[..|ready| - 1][..i] == ready[..i];
  }

  /** Events after the cut do not change what came before it. */
  lemma DoomsEarlier(clients: set<Fd>, ready: seq<Ready>, cut: nat, cut': nat, i: nat, fd: Fd)
    requires i + 1 < |ready| && (cut' == cut || (cut == |ready| - 1 && cut' == |ready|))
    ensures Dooms(clients, ready[..|ready| - 1], cut, i, fd) <==> Dooms(clients, ready, cut', i, fd)
  {
    hide Registered;
    assert ready[..|ready| - 1][..i] == ready[..i];
    if cut' != cut {
      CutLater(clients, ready[..i], cut, cut');
    }
  }

  /** The last event's share of the doomed. */
  lemma DoomedNext(clients: set<Fd>, ready: seq<Ready>, cut: nat, cut': nat, fd: Fd)
    requires ready != [] && (cut' == cut || (cut == |ready| - 1 && cut' == |ready|))
    ensures Doomed(clients, ready, cut', fd)
            <==> Doomed(clients, ready[..|ready| - 1], cut, fd) || Dooms(clients, ready, cut', |ready| - 1, fd)
  {
    hide Dooms;
    var n, init := |ready| - 1, ready[..|ready| - 1];
    forall i | 0 <= i < n ensures Dooms(clients, init, cut, i, fd) <==> Dooms(clients, ready, cut', i, fd) {
      DoomsEarlier(clients, ready, cut, cut', i, fd);
    }
    if i :| 0 <= i < |ready| && Dooms(clients, ready, cut', i, fd) && i < n {
      assert Dooms(clients, init, cut, i, fd);
    }
  }

  /** One event, against the clients registered before it. */
  lemma OneEvent(p: Progress, event: Ready)
    requires p.ok && |p.requests| <= 1
    ensures var p' := Progressed(p, event);
            && (p'.ok <==> !(event.Listener? && ListenerFails(event.accepts)))
            && (event.Listener? ==>
                  p' == p.(clients := Joined(p.clients, event.accepts, Heard(event.accepts, 0)), ok := p'.ok))
            && (event.Client? ==>
                  var served := Served(event, p.clients) && p.requests == [];
                  && p'.clients == (if served && Rejected(event.received) && !event.delivered then p.clients - {event.fd}
                                    else p.clients)
                  && p'.doomed == (if event.fd in p.clients
                                      && (event.hangUp || (p.requests == [] && event.readable && Ends(event.received)))
                                   then p.doomed + {event.fd} else p.doomed)
                  && (if served && event.received.Packet? && event.received.utf8 && ParseRequest(event.received.text).Ok? then
                        p'.requests == [PendingRequest(event.fd, ParseRequest(event.received.text).value)]
                      else p'.requests == p.requests))
  {
    hide ParseRequest, Welcomed, Joined, Heard;
    if event.Listener? {
      AcceptLaw(p.clients, event.accepts);
    }
  }

  /** The request, the clients and the doomed after some events are those that `cut` explains. */
  ghost predicate Explained(clients: set<Fd>, ready: seq<Ready>, cut: nat, p: Progress) {
    && FirstEligible(clients, ready, cut)
    && |p.requests| <= 1 && (p.requests != [] <==> cut < |ready|)
    && (p.requests != [] ==> Eligible(clients, ready, cut, p.requests[0]))
    && p.clients == Registered(clients, ready, cut)
    && (forall fd :: fd in p.doomed <==> Doomed(clients, ready, cut, fd))
  }

  lemma EligibleAt(clients: set<Fd>, ready: seq<Ready>, r: PendingRequest)
    requires ready != []
    ensures var n := |ready| - 1;
            var before, event := Registered(clients, ready[..n], n), ready[n];
            Eligible(clients, ready, n, r)
            <==> Served(event, before) && event.received.Packet? && event.received.utf8
                 && ParseRequest(event.received.text) == Ok(r.config) && r.client == event.fd
  {
    hide ParseRequest, Registered;
  }

  /** Once the cut is passed it stays. */
  lemma AfterCut(clients: set<Fd>, ready: seq<Ready>, cut: nat, before: Progress, p: Progress)
    requires ready != [] && Explained(clients, ready[..|ready| - 1], cut, before) && cut < |ready| - 1
    requires before.ok && p == Progressed(before, ready[|ready| - 1]) && p.ok
    ensures Explained(clients, ready, cut, p)
  {
    hide Eligible, Dooms, Doomed, Progressed, Joined, Heard, Rejected, Ends, ListenerFails;
    var n, init := |ready| - 1, ready[..|ready| - 1];
    OneEvent(before, ready[n]);
    forall i, r | 0 <= i < n ensures Eligible(clients, init, i, r) <==> Eligible(clients, ready, i, r) {
      EligibleEarlier(clients, ready, i, r);
    }
    forall fd: Fd ensures fd in p.doomed <==> Doomed(clients, ready, cut, fd) {
      DoomedNext(clients, ready, cut, cut, fd);
      DoomsAt(clients, ready, cut, fd);
    }
  }

  lemma DoomsAt(clients: set<Fd>, ready: seq<Ready>, cut: nat, fd: Fd)
    requires ready != []
    ensures var n := |ready| - 1;
            var before, event := Registered(clients, ready[..n], cut), ready[n];
            Dooms(clients, ready, cut, n, fd)
            <==> event.Client? && event.fd == fd && fd in before
                 && (event.hangUp || (n < cut && event.readable && Ends(event.received)))
  {
    hide Registered, Ends;
  }

  /** Until then every event is looked at; the first eligible one becomes the cut. */
  lemma BeforeCut(clients: set<Fd>, ready: seq<Ready>, before: Progress, p: Progress) returns (cut: nat)
    requires ready != [] && Explained(clients, ready[..|ready| - 1], |ready| - 1, before)
    requires before.ok && p == Progressed(before, ready[|ready| - 1]) && p.ok
    ensures Explained(clients, ready, cut, p)
  {
    hide Eligible, Dooms, Doomed, Progressed, Joined, Heard, ListenerFails, ParseRequest;
    var n, init := |ready| - 1, ready[..|ready| - 1];
    OneEvent(before, ready[n]);
    cut := if p.requests != [] then n else n + 1;
    forall i, r | 0 <= i < n ensures Eligible(clients, init, i, r) <==> Eligible(clients, ready, i, r) {
      EligibleEarlier(clients, ready, i, r);
    }
    forall r ensures Eligible(clients, ready, n, r) <==> p.requests == [r] {
      EligibleAt(clients, ready, r);
    }
    CutLater(clients, init, n, n + 1);
    forall fd: Fd ensures fd in p.doomed <==> Doomed(clients, ready, cut, fd) {
      DoomedNext(clients, ready, n, cut, fd);
      DoomsAt(clients, ready, cut, fd);
    }
  }

  lemma EligibleInside(clients: set<Fd>, ready: seq<Ready>, i: nat, r: PendingRequest)
    requires Eligible(clients, ready, i, r)
    ensures i < |ready|
  {
  }

  lemma {:induction false} ExplainAll(clients: set<Fd>, ready: seq<Ready>) returns (cut: nat)
    requires Handled(clients, ready).ok
    ensures Explained(clients, ready, cut, Handled(clients, ready))
  {
    hide Explained, Progressed;
    if ready == [] {
      cut := 0;
      NoEvents(clients);
    } else {
      var n, init := |ready| - 1, ready[..|ready| - 1];
      var before := Handled(clients, init);
      StaysOk(before, ready[n]);
      cut := ExplainAll(clients, init);
      CutInside(clients, init, cut, before);
      if cut < n {
        AfterCut(clients, ready, cut, before, Handled(clients, ready));
      } else {
        cut := BeforeCut(clients, ready, before, Handled(clients, ready));
      }
    }
  }

  lemma CutInside(clients: set<Fd>, ready: seq<Ready>, cut: nat, p: Progress)
    requires Explained(clients, ready, cut, p)
    ensures cut <= |ready|
  {
  }

  lemma NoEvents(clients: set<Fd>)
    ensures Explained(clients, [], 0, Handled(clients, []))
  {
  }

  lemma StaysOk(p: Progress, event: Ready)
    requires Progressed(p, event).ok
    ensures p.ok
  {
  }

  /**
   * One whole wake-up. Unless the listener failed, the request taken is the first one whose sender is registered
   * when it comes, and there is none only if nobody registered asks; afterwards everybody who joined is there
   * but for those an undelivered rejection removed, and the hung-up and the offending are to be dropped.
   */
  lemma {:induction false} DrainLaw(clients: set<Fd>, ready: seq<Ready>) returns (cut: nat)
    requires Handled(clients, ready).ok
    ensures FirstEligible(clients, ready, cut)
    ensures var p := Handled(clients, ready);
            && |p.requests| <= 1
            && (p.requests != [] <==> exists i, r :: Eligible(clients, ready, i, r))
            && (p.requests != [] ==> cut < |ready| && Eligible(clients, ready, cut, p.requests[0]))
            && p.clients == Registered(clients, ready, cut)
            && (forall fd :: fd in p.doomed <==> Doomed(clients, ready, cut, fd))
  {
    hide Registered, Eligible, Doomed, Handled;
    cut := ExplainAll(clients, ready);
    if i, r :| 0 <= i && Eligible(clients, ready, i, r) {
      EligibleInside(clients, ready, i, r);
    }
  }

  /** A wake-up fails exactly when a listener event in it does. */
  lemma {:induction false} DrainFails(clients: set<Fd>, ready: seq<Ready>)
    ensures Handled(clients, ready).ok
            <==> forall i :: 0 <= i < |ready| && ready[i].Listener? ==> !ListenerFails(ready[i].accepts)
  {
    hide ListenerFails, Progressed, TakenFrom;
    if ready != [] {
      var n := |ready| - 1;
      DrainFails(clients, ready[..n]);
      var before := Handled(clients, ready[..n]);
      if before.ok {
        RequestIsGenuine(clients, ready[..n]);
        OneEvent(before, ready[n]);
      } else {
        FailedLasts(before, ready[n]);
      }
    }
  }

  lemma FailedLasts(p: Progress, event: Ready)
    requires !p.ok
    ensures !Progressed(p, event).ok
  {
  }

  // ------------------------------------------------------------- the packets

  /** The exact form of a request, and the only texts that are one. */
  lemma RequestText(packet: string, config: ActiveConfig)
    ensures ParseRequest(packet) == Ok(config) <==>
            && packet == "switch-config\0" + config.source + "\0" + config.content
            && config.source != "" && '\0' !in config.source
            && ByteSize(config.source) <= 4096 && ByteSize(config.content) <= 65536
  {
    hide ByteSize;
    assert "switch-config\0" + config.source + "\0" + config.content
        == "switch-config\0" + (config.source + ['\0'] + config.content);
    if ParseRequest(packet) != Ok(config) {
      RequestRoundTrip(config);
    }
  }

  /** A text of plain ASCII takes a byte a character; two texts take what each takes. */
  lemma {:induction false} SizeOfBoth(a: string, b: string)
    ensures ByteSize(a + b) == ByteSize(a) + ByteSize(b)
    ensures (forall i :: 0 <= i < |b| ==> b[i] as int < 0x80) ==> ByteSize(b) == |b|
    decreases |b|
  {
    if b == "" {
      assert a + b == a;
    } else {
      SizeOfBoth(a, b[..|b| - 1]);
      assert (a + b)[..|a + b| - 1] == a + b[..|b| - 1];
    }
  }

  function Bit(value: bool): string {
    if value then "1" else "0"
  }

  lemma SameFields(ready: string, needs: string, haptics: string)
    ensures ("uhid_ready=" + ready) + " " + (("needs_config=" + needs) + " " + ("bt_haptics=" + haptics))
            == "uhid_ready=" + ready + " needs_config=" + needs + " bt_haptics=" + haptics
  {
  }

  /** The exact texts of the status packets and the answers. */
  lemma StatusTexts(state: ControlState)
    ensures var fields := "uhid_ready=" + Bit(state.uhidReady) + " needs_config=" + Bit(state.needsConfig) + " bt_haptics="
                          + if state.btHaptics.None? then "none"
                            else if state.btHaptics.value.DualSense? then "dualsense" else "dualsense-edge";
            && HelloPacket(state) == "hello version=3 " + fields
            && StatePacket(state) == "state " + fields
  {
    var ready, needs, haptics := Bit(state.uhidReady), Bit(state.needsConfig), DeviceField(state.btHaptics);
    SameFields(ready, needs, haptics);
    assert "hello " + ("version=3 " + Fields(state)) == "hello version=3 " + Fields(state) by {
      hide Fields;
    }
  }

  // ----------------------------------------------------- what clients are told

  /** What one accept that is made says to a newcomer it can reach: hello, or that the server is full. */
  function Word(clients: set<Fd>, accept: Accept, state: ControlState): seq<(Fd, string)> {
    if !accept.Connected? || !accept.greeted then []
    else if |clients| < 16 then [(accept.fd, HelloPacket(state))]
    else [(accept.fd, "error busy " + "control client limit reached")]
  }

  /** What the first `n` accepts say. */
  function Greeted(clients: set<Fd>, accepts: seq<Accept>, n: nat, state: ControlState): seq<(Fd, string)>
    requires n <= |accepts|
  {
    if n == 0 then []
    else Greeted(clients, accepts, n - 1, state) + Word(Joined(clients, accepts, n - 1), accepts[n - 1], state)
  }

  lemma GreetingsStep(clients: set<Fd>, heard: seq<Accept>, i: nat, state: ControlState)
    requires i < |heard|
    ensures Greetings(clients, heard[i..], state) ==
            if heard[i].NoMore? || heard[i].AcceptFailed? then []
            else if heard[i].Interrupted? then Greetings(clients, heard[i + 1..], state)
            else (if !heard[i].greeted then []
                  else [(heard[i].fd, if |clients| < 16 then HelloPacket(state) else AnswerPacket(BUSY))])
                 + Greetings(if |clients| < 16 && heard[i].greeted && heard[i].watched then clients + {heard[i].fd} else clients,
                             heard[i + 1..], state)
  {
    hide HelloPacket, AnswerPacket;
    assert heard[i..][0] == heard[i] && heard[i..][1..] == heard[i + 1..];
  }

  lemma Busy(message: string)
    ensures AnswerPacket(Refused("busy", message)) == "error busy " + message
  {
    assert "error " + ("busy" + (" " + message)) == "error busy " + message;
  }

  lemma WordNext(clients: set<Fd>, accepts: seq<Accept>, i: nat, state: ControlState)
    requires i < Heard(accepts, 0)
    ensures Greeted(clients, accepts, i + 1, state)
            == Greeted(clients, accepts, i, state) + Word(Joined(clients, accepts, i), accepts[i], state)
    ensures var heard := FirstAccepts(accepts);
            i < |heard|
            && Greetings(Joined(clients, accepts, i), heard[i..], state)
               == Word(Joined(clients, accepts, i), accepts[i], state)
                  + Greetings(Joined(clients, accepts, i + 1), heard[i + 1..], state)
  {
    hide Greetings, FirstAccepts, HelloPacket, AnswerPacket, Heard;
    FirstAre(accepts);
    Busy("control client limit reached");
    GreetingsStep(Joined(clients, accepts, i), FirstAccepts(accepts), i, state);
  }

  lemma Regroup<T>(a: seq<T>, b: seq<T>, c: seq<T>)
    ensures a + (b + c) == (a + b) + c
  {
  }

  lemma NothingMore(clients: set<Fd>, accepts: seq<Accept>, state: ControlState)
    ensures var n, heard := Heard(accepts, 0), FirstAccepts(accepts);
            n <= |heard| && Greetings(Joined(clients, accepts, n), heard[n..], state) == []
  {
    hide Greetings, FirstAccepts, HelloPacket, AnswerPacket;
    var n, heard := Heard(accepts, 0), FirstAccepts(accepts);
    FirstAre(accepts);
    if n < |heard| {
      GreetingsStep(Joined(clients, accepts, n), heard, n, state);
    } else {
      NobodyGreeted(Joined(clients, accepts, n), heard, state);
    }
  }

  lemma {:induction false} GreetingsFrom(clients: set<Fd>, accepts: seq<Accept>, i: nat, state: ControlState)
    requires i <= Heard(accepts, 0)
    ensures i <= |FirstAccepts(accepts)|
    ensures Greeted(clients, accepts, i, state) + Greetings(Joined(clients, accepts, i), FirstAccepts(accepts)[i..], state)
            == Greeted(clients, accepts, Heard(accepts, 0), state)
    decreases |accepts| - i
  {
    hide Greetings, Heard, FirstAccepts, Greeted, Joined, Word;
    FirstAre(accepts);
    if i < Heard(accepts, 0) {
      WordNext(clients, accepts, i, state);
      Regroup(Greeted(clients, accepts, i, state), Word(Joined(clients, accepts, i), accepts[i], state),
              Greetings(Joined(clients, accepts, i + 1), FirstAccepts(accepts)[i + 1..], state));
      GreetingsFrom(clients, accepts, i + 1, state);
    } else {
      NothingMore(clients, accepts, state);
    }
  }

  lemma NobodyGreeted(clients: set<Fd>, heard: seq<Accept>, state: ControlState)
    ensures Greetings(clients, heard[|heard|..], state) == []
  {
  }

  /** The text of every answer. */
  lemma AnswerTexts(code: string, message: string)
    ensures AnswerPacket(Accepted) == "ok switch-config"
    ensures AnswerPacket(Refused(code, message)) == "error " + code + " " + message
  {
    assert "error " + (code + (" " + message)) == "error " + code + " " + message;
  }

  /** The answer to a packet that is rejected. */
  function Complaint(received: Received): string
    requires Rejected(received)
  {
    "error protocol " + if received.Oversized? then "control packet exceeds size limit"
                        else if !received.utf8 then "request is not UTF-8"
                        else ParseRequest(received.text).error
  }

  /**
   * What one more event of a wake-up gets through to clients: a listener event the greetings of its newcomers;
   * a packet that is served and rejected its complaint, if the sender can be reached; anything else nothing.
   */
  lemma EventSays(clients: set<Fd>, ready: seq<Ready>, event: Ready, state: ControlState)
    requires Handled(clients, ready).ok
    ensures var p, said := Handled(clients, ready), Said(clients, ready, state);
            Said(clients, ready + [event], state) == said +
            if event.Listener? then Greeted(p.clients, event.accepts, Heard(event.accepts, 0), state)
            else if p.requests == [] && Served(event, p.clients) && Rejected(event.received) && event.delivered then
              [(event.fd, Complaint(event.received))]
            else []
  {
    hide Handled, Greetings, Greeted, Heard, HelloPacket, ParseRequest, Welcomed;
    var p := Handled(clients, ready);
    assert (ready + [event])[..|ready|] == ready;
    if event.Listener? {
      GreetingsFrom(p.clients, event.accepts, 0, state);
      assert FirstAccepts(event.accepts)[0..] == FirstAccepts(event.accepts);
      NobodyYet(p.clients, event.accepts, state);
    } else if Rejected(event.received) {
      ComplaintIs(event.received);
    }
  }

  lemma NobodyYet(clients: set<Fd>, accepts: seq<Accept>, state: ControlState)
    ensures Greeted(clients, accepts, 0, state) == []
  {
  }

  lemma ComplaintIs(received: Received)
    requires Rejected(received)
    ensures Rejection(received).Some?
    ensures AnswerPacket(Refused("protocol", Rejection(received).value)) == Complaint(received)
  {
    hide ParseRequest, AnswerPacket;
    Spelled(Rejection(received).value);
  }

  lemma Spelled(message: string)
    ensures AnswerPacket(Refused("protocol", message)) == "error protocol " + message
  {
    assert "error " + ("protocol" + (" " + message)) == "error protocol " + message;
  }
}
