/** The telemetry service of the live-timing pipeline: the race-state store fed by
    UDP datagrams, the endpoint configuration, the snapshot served to viewers and
    the fan-out of that snapshot to the connected push-channel clients. */
module UdpService {
  import opened JsText

  // ---------------------------------------------------------------------------
  // Endpoint configuration

  const DefaultUdpPort: int := 9600
  const DefaultServerIp: string := "127.0.0.1"
  const DefaultServerPort: int := 9600
  const DefaultListenAddress: string := "127.0.0.1:11095"
  const DefaultSendAddress: string := "127.0.0.1:12095"

  /** The stored endpoint configuration; `serverPort == None` is a NaN port. */
  datatype ServerConfig = ServerConfig(
    udpPort: int,
    serverIp: string,
    serverPort: Option<int>,
    udpListenAddress: string,
    udpSendAddress: string)

  const DefaultConfig: ServerConfig :=
    ServerConfig(DefaultUdpPort, DefaultServerIp, Some(DefaultServerPort), DefaultListenAddress, DefaultSendAddress)

  /** The UDP-related fields of a race record. */
  datatype RaceEndpoint = RaceEndpoint(
    serverIp: Option<string>,
    serverPort: JsScalar,
    udpListenAddress: Option<string>,
    udpSendAddress: Option<string>)

  /** What `configureServer` may be handed: a primitive value (falsy, or a string
      or number whose race properties are all undefined) or a race record. */
  datatype RaceArg = Primitive(v: JsScalar) | Record(race: RaceEndpoint)

  /** The listen port taken from a `"host:port"` send address: the parseInt of the
      second piece when the address splits into exactly two pieces on ':' and that
      value is neither NaN nor 0; otherwise the default 9600. */
  function PortFromSendAddress(addr: Option<string>): int
  {
    if Present(addr) then
      var parts := Split(addr.value, ':');
      if |parts| == 2 then
        match ParseInt(parts[1])
        case Some(p) => if p != 0 then p else DefaultUdpPort
        case None => DefaultUdpPort
      else DefaultUdpPort
    else DefaultUdpPort
  }

  /** The configuration `configureServer(race)` stores and returns. */
  function ConfigFor(arg: RaceArg): ServerConfig
  {
    match arg
    case Record(r) =>
      ServerConfig(
        PortFromSendAddress(r.udpSendAddress),
        if Present(r.serverIp) then r.serverIp.value else DefaultServerIp,
        if Truthy(r.serverPort) then ParseIntScalar(r.serverPort) else Some(DefaultServerPort),
        if Present(r.udpListenAddress) then r.udpListenAddress.value else DefaultListenAddress,
        if Present(r.udpSendAddress) then r.udpSendAddress.value else DefaultSendAddress)
    case _ => DefaultConfig
  }

  /** A falsy argument, or a string or number (which has none of the race
      properties), leaves every field at its default. */
  lemma ConfigForWithoutRecord(arg: RaceArg)
    requires !arg.Record?
    ensures ConfigFor(arg) == DefaultConfig
  {
  }

  /** The port differs from 9600 only when the send address has exactly one ':'
      and the piece after it parses to that non-zero port. */
  lemma PortFromSendAddressShape(addr: Option<string>)
    ensures var port := PortFromSendAddress(addr);
      port != DefaultUdpPort ==>
        Present(addr) && Count(addr.value, ':') == 1 && port != 0 &&
        ParseInt(Split(addr.value, ':')[1]) == Some(port)
  {
    if Present(addr) {
      SplitCount(addr.value, ':');
    }
  }

  /** An address that does not contain exactly one ':' falls back to 9600. */
  lemma PortFallsBackUnlessOneColon(addr: string)
    requires Count(addr, ':') != 1
    ensures PortFromSendAddress(Some(addr)) == DefaultUdpPort
  {
    SplitCount(addr, ':');
  }

  /** `"host:port"` with a colon-free host and a positive decimal port yields that port. */
  lemma PortOfHostAndPort(host: string, port: nat)
    requires ':' !in host && port > 0
    ensures PortFromSendAddress(Some(host + ":" + NatToString(port))) == port
  {
    var p := NatToString(port);
    assert ':' !in p by {
      assert AllDigits(p);
    }
    SplitAt(host, ':', p);
    SplitNoSeparator(p, ':');
    assert host + ":" + p == host + [':'] + p;
    ParseIntOfNatToString(port);
  }

  /** An address without a colon falls back to 9600. */
  lemma PortFallbackNoColon()
    ensures PortFromSendAddress(Some("badformat")) == DefaultUdpPort
  {
    SplitNoSeparator("badformat", ':');
  }

  /** An address with two colons falls back to 9600. */
  lemma PortFallbackTwoColons()
    ensures PortFromSendAddress(Some("a:b:c")) == DefaultUdpPort
  {
    assert Count("a:b:c", ':') == 2 by {
      assert "a:b:c"[1..] == ":b:c";
      assert ":b:c"[1..] == "b:c";
      assert "b:c"[1..] == ":c";
      assert ":c"[1..] == "c";
    }
    PortFallsBackUnlessOneColon("a:b:c");
  }

  /** An empty port falls back to 9600. */
  lemma PortFallbackEmpty()
    ensures PortFromSendAddress(Some("h:")) == DefaultUdpPort
  {
    SplitAt("h", ':', "");
    assert "h" + [':'] + "" == "h:";
    assert Split("", ':') == [""];
    ParseIntNoDigits("");
  }

  /** A zero port falls back to 9600. */
  lemma PortFallbackZero()
    ensures PortFromSendAddress(Some("h:0")) == DefaultUdpPort
  {
    SplitAt("h", ':', "0");
    assert "h" + [':'] + "0" == "h:0";
    SplitNoSeparator("0", ':');
    ParseIntOfNatToString(0);
  }

  // ---------------------------------------------------------------------------
  // Session and drivers

  datatype Session = Session(
    sessionType: string,
    trackName: string,
    trackLayout: string,
    sessionDuration: nat,
    currentTime: nat,
    remainingTime: nat,
    totalLaps: nat,
    currentLap: nat,
    ambientTemperature: real,
    trackTemperature: real,
    weatherType: string,
    windSpeed: real,
    windDirection: int)

  /** The session every accepted datagram installs. */
  const DemoSession: Session :=
    Session("Race", "Interlagos", "default", 1800, 600, 1200, 35, 12, 24.5, 38.7, "clear", 12.3, 45)

  datatype Driver = Driver(
    position: nat,
    carNumber: string,
    driverName: string,
    teamName: string,
    carModel: string,
    currentLap: nat,
    raceTime: string,
    gapToLeader: string,
    bestLap: string,
    lastLap: string,
    status: string,
    pitStops: nat,
    tireCompound: string,
    fuelLevel: nat)

  /** The random numbers one generated driver draws. Each field stands for one
      `Math.floor(Math.random() * k)`; the model reduces it modulo `k`, so every
      value the source can produce is reachable and no other. */
  datatype Draw = Draw(
    raceSecs: nat, raceMillis: nat, gapSecs: nat, gapMillis: nat,
    bestSecs: nat, bestMillis: nat, lastSecs: nat, lastMillis: nat,
    pitStops: nat, tire: nat, fuel: nat)

  const TireCompounds: seq<string> := ["Soft", "Medium", "Hard"]

  /** Number of drivers an accepted datagram of `len` bytes writes. */
  function DriverCount(len: nat): (n: nat)
    ensures 1 <= n <= 10
  {
    var k := len / 100;
    if k < 1 then 1 else if k > 10 then 10 else k
  }

  /** The driver written at index `i` (position `i + 1`). */
  function GeneratedDriver(i: nat, d: Draw): Driver
  {
    var pos := i + 1;
    Driver(
      pos,
      PadStart(NatToString(pos), 3, '0'),
      "Driver " + NatToString(pos),
      "Team " + NatToString(pos),
      "GT3 Car",
      5 + i,
      if i == 0 then "25:42.365"
      else "+" + NatToString(d.raceSecs % 60 + 1) + "." + NatToString(d.raceMillis % 999),
      if i == 0 then ""
      else NatToString(d.gapSecs % 30 + 1) + "." + NatToString(d.gapMillis % 999) + "s",
      "1:" + NatToString(d.bestSecs % 60) + "." + NatToString(d.bestMillis % 999),
      "1:" + NatToString(d.lastSecs % 60) + "." + NatToString(d.lastMillis % 999),
      "Running",
      d.pitStops % 3,
      TireCompounds[d.tire % 3],
      10 + d.fuel % 90)
  }

  /** The facts every stored driver satisfies, for the position it is stored at. */
  predicate DriverFacts(d: Driver, pos: nat)
  {
    d.position == pos &&
    |d.carNumber| == 3 && AllDigits(d.carNumber) && DigitsValue(d.carNumber) == pos &&
    d.currentLap == pos + 4 &&
    d.status == "Running" &&
    (pos == 1 ==> d.gapToLeader == "" && d.raceTime == "25:42.365") &&
    (pos != 1 ==> |d.raceTime| > 0 && d.raceTime[0] == '+' &&
                  |d.gapToLeader| > 0 && d.gapToLeader[|d.gapToLeader| - 1] == 's') &&
    d.pitStops < 3 && 10 <= d.fuelLevel < 100 && d.tireCompound in TireCompounds
  }

  /** Every driver in a list fits the position it has in the list. */
  predicate ListFits(list: seq<Driver>)
  {
    forall j :: 0 <= j < |list| ==> list[j].position == j + 1 && DriverFacts(list[j], j + 1)
  }

  /** A generated driver is stored at its own position, its car number is the
      position written with three digits, the leader has no gap and the fixed race
      time, and the random fields stay in their ranges. */
  lemma GeneratedDriverFacts(i: nat, d: Draw)
    requires i < 999
    ensures DriverFacts(GeneratedDriver(i, d), i + 1)
  {
    var g := GeneratedDriver(i, d);
    NatToStringLength(i + 1);
    PaddedDigits(i + 1, 3);
    if i != 0 {
      var race := "+" + NatToString(d.raceSecs % 60 + 1) + ".";
      assert race[0] == '+';
      assert g.raceTime == race + NatToString(d.raceMillis % 999);
      var gap := NatToString(d.gapSecs % 30 + 1) + "." + NatToString(d.gapMillis % 999);
      assert g.gapToLeader == gap + "s";
    }
    assert d.tire % 3 < 3;
  }

  /** The drivers a packet writes, in list order. */
  function GeneratedDrivers(n: nat, draw: nat -> Draw): (ds: seq<Driver>)
    ensures |ds| == n
  {
    if n == 0 then [] else GeneratedDrivers(n - 1, draw) + [GeneratedDriver(n - 1, draw(n - 1))]
  }

  /** A JavaScript Map from position to driver: its entries in insertion order. */
  datatype Entry = Entry(key: int, value: Driver)

  /** `map.set(k, v)`: an existing key keeps its place, a new key goes last. */
  function MapSet(m: seq<Entry>, k: int, v: Driver): (r: seq<Entry>)
  {
    if m == [] then [Entry(k, v)]
    else if m[0].key == k then [Entry(k, v)] + m[1..]
    else [m[0]] + MapSet(m[1..], k, v)
  }

  /** `Array.from(map.values())`. */
  function Values(m: seq<Entry>): seq<Driver>
  {
    seq(|m|, i requires 0 <= i < |m| => m[i].value)
  }

  /** The keys, in insertion order, are `base, base + 1, ...`. */
  predicate KeysFrom(m: seq<Entry>, base: int)
  {
    forall i :: 0 <= i < |m| ==> m[i].key == base + i
  }

  /** The driver map's key sequence is exactly `1, 2, ..., |m|`. */
  predicate KeysArePositions(m: seq<Entry>)
  {
    KeysFrom(m, 1)
  }

  /** Setting key `base + j` (an existing key or the next one) in a map keyed
      `base, base + 1, ...` overwrites entry `j` in place or appends it. */
  lemma {:induction false} MapSetConsecutive(m: seq<Entry>, base: int, j: nat, v: Driver)
    requires KeysFrom(m, base) && j <= |m|
    ensures |MapSet(m, base + j, v)| == if j < |m| then |m| else |m| + 1
    ensures forall k {:trigger MapSet(m, base + j, v)[k]} :: 0 <= k < |MapSet(m, base + j, v)| ==>
      MapSet(m, base + j, v)[k] == if k == j then Entry(base + j, v) else m[k]
  {
    if m != [] && j > 0 {
      assert KeysFrom(m[1..], base + 1) by {
        forall k | 0 <= k < |m[1..]| ensures m[1..][k].key == base + 1 + k {
          assert m[1..][k] == m[k + 1];
        }
      }
      MapSetConsecutive(m[1..], base + 1, j - 1, v);
      assert m[0].key != base + j;
      assert MapSet(m, base + j, v) == [m[0]] + MapSet(m[1..], base + 1 + (j - 1), v);
    }
  }

  /** The same step stated on the key sequence and the value list. */
  lemma MapSetConsecutiveValues(m: seq<Entry>, base: int, j: nat, v: Driver)
    requires KeysFrom(m, base) && j <= |m|
    ensures var r := MapSet(m, base + j, v);
      KeysFrom(r, base) &&
      Values(r) == if j < |m| then Values(m)[j := v] else Values(m) + [v]
  {
    MapSetConsecutive(m, base, j, v);
    var r := MapSet(m, base + j, v);
    forall k | 0 <= k < |r| ensures r[k].key == base + k {
    }
    if j < |m| {
      var w := Values(m)[j := v];
      forall k | 0 <= k < |r| ensures Values(r)[k] == w[k] {
        if k != j {
          assert Values(m)[k] == m[k].value;
        }
      }
    } else {
      var w := Values(m) + [v];
      forall k | 0 <= k < |r| ensures Values(r)[k] == w[k] {
        if k != j {
          assert Values(m)[k] == m[k].value;
        }
      }
    }
  }

  /** The driver list after writing `written` over `prev`: the written positions take
      the new drivers, the positions beyond them keep the previous ones. */
  function Overlay(prev: seq<Driver>, written: seq<Driver>): (r: seq<Driver>)
  {
    if |written| >= |prev| then written else written + prev[|written|..]
  }

  /** Overlay writes exactly positions `1..|written|`, keeps the rest, never shrinks. */
  lemma OverlayMeaning(prev: seq<Driver>, written: seq<Driver>)
    ensures |Overlay(prev, written)| == if |written| >= |prev| then |written| else |prev|
    ensures forall i :: 0 <= i < |written| ==> Overlay(prev, written)[i] == written[i]
    ensures forall i :: |written| <= i < |prev| ==> Overlay(prev, written)[i] == prev[i]
  {
  }

  /** Writing a list that fits its positions over one that does gives a list
      that still fits: every stored driver keeps the facts of its position. */
  lemma OverlayFits(prev: seq<Driver>, written: seq<Driver>)
    requires ListFits(prev) && ListFits(written)
    ensures ListFits(Overlay(prev, written))
  {
    OverlayMeaning(prev, written);
    var o := Overlay(prev, written);
    forall j | 0 <= j < |o| ensures o[j].position == j + 1 && DriverFacts(o[j], j + 1) {
      if j < |written| {
        assert o[j] == written[j];
      } else {
        assert o[j] == prev[j];
      }
    }
  }

  // ---------------------------------------------------------------------------
  // Formatting

  /** `formatSessionTime`: whole minutes, ':' and two-digit seconds. */
  function FormatSessionTime(seconds: nat): string
  {
    NatToString(seconds / 60) + ":" + PadStart(NatToString(seconds % 60), 2, '0')
  }

  /** Reads an `"M:SS"` string back into its minutes and seconds. */
  function ReadSessionTime(t: string): Option<(nat, nat)>
  {
    ReadMinutesAndSeconds(Split(t, ':'))
  }

  /** Reads the two pieces of an `"M:SS"` string: digits, then two digits below 60. */
  function ReadMinutesAndSeconds(parts: seq<string>): Option<(nat, nat)>
  {
    if |parts| == 2 && |parts[0]| >= 1 && AllDigits(parts[0]) && |parts[1]| == 2 && AllDigits(parts[1])
       && DigitsValue(parts[1]) < 60
    then Some((DigitsValue(parts[0]), DigitsValue(parts[1])))
    else None
  }

  /** The formatted time is `M:SS` with `M = s / 60` and `SS` the zero-padded
      `s % 60`, and reading it back gives those minutes and seconds again. */
  lemma FormatSessionTimeRoundTrip(s: nat)
    ensures Split(FormatSessionTime(s), ':') == [NatToString(s / 60), PadStart(NatToString(s % 60), 2, '0')]
    ensures ReadSessionTime(FormatSessionTime(s)) == Some((s / 60, s % 60))
  {
    var m := NatToString(s / 60);
    var p := PadStart(NatToString(s % 60), 2, '0');
    FormatSessionTimeSplit(s);
    NatToStringLength(s % 60);
    PaddedDigits(s % 60, 2);
    DigitsValueOfNatToString(s / 60);
    ReadMinutesSeconds(m, p, s / 60, s % 60);
  }

  /** Two digit strings, the second of two digits below 60, read back as the
      minutes and seconds they spell. */
  lemma ReadMinutesSeconds(m: string, p: string, mins: nat, secs: nat)
    requires secs < 60
    requires |m| >= 1 && AllDigits(m) && DigitsValue(m) == mins
    requires |p| == 2 && AllDigits(p) && DigitsValue(p) == secs
    ensures ReadMinutesAndSeconds([m, p]) == Some((mins, secs))
  {
  }

  /** Different durations never format to the same text. */
  lemma FormatSessionTimeInjective(a: nat, b: nat)
    requires FormatSessionTime(a) == FormatSessionTime(b)
    ensures a == b
  {
    FormatSessionTimeRoundTrip(a);
    FormatSessionTimeRoundTrip(b);
    assert a == (a / 60) * 60 + a % 60;
  }

  /** The formatted time splits at its one ':' into minutes and padded seconds. */
  lemma FormatSessionTimeSplit(s: nat)
    ensures Split(FormatSessionTime(s), ':') == [NatToString(s / 60), PadStart(NatToString(s % 60), 2, '0')]
  {
    var m := NatToString(s / 60);
    var padded := PadStart(NatToString(s % 60), 2, '0');
    NatToStringLength(s % 60);
    PaddedDigits(s % 60, 2);
    ColonFree(m);
    ColonFree(padded);
    SplitAt(m, ':', padded);
    SplitNoSeparator(padded, ':');
    assert FormatSessionTime(s) == m + [':'] + padded;
  }

  lemma ColonFree(s: string)
    requires AllDigits(s)
    ensures ':' !in s
  {
  }

  const Directions: seq<string> := ["N", "NE", "E", "SE", "S", "SW", "W", "NW"]

  /** JavaScript's `%`, which truncates toward zero. */
  function JsRem(a: int, b: int): (r: int)
    requires b > 0
    ensures -b < r < b
    ensures a >= 0 ==> r == a % b
  {
    if a >= 0 then a % b else -((-a) % b)
  }

  /** `getWindDirectionString`: `Math.round(degrees / 45) % 8` indexes the eight
      compass points; a negative index reads `undefined`, here `None`. For an
      integer `d`, `Math.round(d / 45)` is `floor((2d + 45) / 90)`. */
  function WindDirection(degrees: int): Option<string>
  {
    var index := JsRem((2 * degrees + 45) / 90, 8);
    if index < 0 then None else Some(Directions[index])
  }

  /** For a non-negative bearing the result is always one of the eight points,
      the one whose 45-degree sector (centred on it) holds the bearing. */
  lemma WindDirectionSector(d: nat, k: nat)
    requires 45 * k - 22 <= d <= 45 * k + 22
    ensures WindDirection(d) == Some(Directions[k % 8])
    ensures WindDirection(d).value in Directions
  {
    assert (2 * d + 45) / 90 == k;
  }

  /** Bearings a full turn apart name the same point; 0 and 360 are both north. */
  lemma WindDirectionPeriodic(d: nat)
    ensures WindDirection(d + 360) == WindDirection(d)
    ensures WindDirection(0) == WindDirection(360) == Some("N")
  {
    assert (2 * (d + 360) + 45) / 90 == (2 * d + 45) / 90 + 8;
  }

  /** Bearings from -337 to -23 give a negative index: the source reads `undefined`. */
  lemma WindDirectionNegative(d: int)
    requires -337 <= d <= -23
    ensures WindDirection(d) == None
  {
    var q := (2 * d + 45) / 90;
    assert -7 <= q <= -1;
  }

  // ---------------------------------------------------------------------------
  // Snapshots and messages

  /** Temperatures and wind speed are the numbers `toFixed(1)` renders. */
  datatype TrackConditions = TrackConditions(
    trackTemp: real, airTemp: real, humidity: string, windSpeed: real, windDirection: Option<string>)

  datatype SessionInfo = SessionInfo(sessionType: string, remainingTime: string, totalLaps: nat, currentLap: nat)

  datatype LiveTimingData = LiveTimingData(
    sessionStatus: string,
    sessionTime: string,
    drivers: seq<Driver>,
    trackConditions: TrackConditions,
    sessionInfo: SessionInfo,
    lastUpdated: string)

  /** The fixed state served while no session has been received. */
  function DisconnectedBaseline(now: string): LiveTimingData
  {
    LiveTimingData("Disconnected", "0:00", [],
      TrackConditions(0.0, 0.0, "0", 0.0, Some("N")),
      SessionInfo("None", "0:00", 0, 0),
      now)
  }

  /** The snapshot built from the store (`getCurrentRaceState`, and the payload of
      `broadcastUpdate`, which builds the same object). */
  function Snapshot(session: Option<Session>, drivers: seq<Entry>, now: string): LiveTimingData
  {
    match session
    case None => DisconnectedBaseline(now)
    case Some(s) =>
      LiveTimingData(
        s.sessionType,
        FormatSessionTime(s.currentTime),
        Values(drivers),
        TrackConditions(s.trackTemperature, s.ambientTemperature, "65", s.windSpeed, WindDirection(s.windDirection)),
        SessionInfo(s.sessionType, FormatSessionTime(s.remainingTime), s.totalLaps, s.currentLap),
        now)
  }

  /** With no session the snapshot is the baseline whatever the stored drivers are;
      with a session it lists the stored drivers in insertion order. */
  lemma SnapshotCases(session: Option<Session>, drivers: seq<Entry>, now: string)
    ensures session.None? ==> Snapshot(session, drivers, now) == DisconnectedBaseline(now)
    ensures session.None? ==> Snapshot(session, drivers, now).drivers == []
    ensures session.Some? ==> Snapshot(session, drivers, now).drivers == Values(drivers)
    ensures Snapshot(session, drivers, now).lastUpdated == now
  {
  }

  /** The live session's clock reads "10:00" elapsed and "20:00" remaining. */
  lemma DemoSessionTimes()
    ensures FormatSessionTime(600) == "10:00"
    ensures FormatSessionTime(1200) == "20:00"
  {
    assert NatToString(1) == "1" && NatToString(2) == "2" && NatToString(0) == "0";
    assert NatToString(10) == NatToString(1) + [DigitChar(0)];
    assert NatToString(20) == NatToString(2) + [DigitChar(0)];
    assert PadStart("0", 2, '0') == Repeat('0', 1) + "0";
  }

  /** The live session's snapshot: a race, 10:00 elapsed, 20:00 left, wind from the NE. */
  lemma DemoSessionSnapshot(drivers: seq<Entry>, now: string)
    ensures Snapshot(Some(DemoSession), drivers, now).sessionStatus == "Race"
    ensures Snapshot(Some(DemoSession), drivers, now).sessionTime == "10:00"
    ensures Snapshot(Some(DemoSession), drivers, now).sessionInfo.remainingTime == "20:00"
    ensures Snapshot(Some(DemoSession), drivers, now).trackConditions.windDirection == Some("NE")
  {
    DemoSessionTimes();
    DemoSessionWind();
  }

  /** The live session's 45-degree wind reads as north-east. */
  lemma DemoSessionWind()
    ensures WindDirection(45) == Some("NE")
  {
    WindDirectionSector(45, 1);
    assert Directions[1] == "NE";
  }

  datatype ServerMessage = LiveUpdate(data: LiveTimingData)

  datatype ReadyState = Connecting | Open | Closing | Closed

  /** A push-channel client, identified by a handle. */
  datatype Client = Client(id: nat, readyState: ReadyState)

  /** One `client.send(message)` call. */
  datatype Send = Send(clientId: nat, payload: ServerMessage)

  /** The sends one fan-out of `msg` performs, in client order: one per OPEN client. */
  function Deliveries(clients: seq<Client>, msg: ServerMessage): seq<Send>
  {
    if clients == [] then []
    else
      var last := clients[|clients| - 1];
      Deliveries(clients[..|clients| - 1], msg) + (if last.readyState == Open then [Send(last.id, msg)] else [])
  }

  /** The ids of the OPEN clients. */
  function OpenIds(clients: seq<Client>): set<nat>
  {
    set j | 0 <= j < |clients| && clients[j].readyState == Open :: clients[j].id
  }

  /** The ids a list of sends reaches. */
  function Recipients(sends: seq<Send>): set<nat>
  {
    set i | 0 <= i < |sends| :: sends[i].clientId
  }

  /** Every send carries the same message, and the clients reached are exactly
      the OPEN ones. */
  lemma {:induction false} DeliveriesMeaning(clients: seq<Client>, msg: ServerMessage)
    ensures forall i :: 0 <= i < |Deliveries(clients, msg)| ==> Deliveries(clients, msg)[i].payload == msg
    ensures Recipients(Deliveries(clients, msg)) == OpenIds(clients)
    ensures |Deliveries(clients, msg)| <= |clients|
  {
    if clients != [] {
      var init := clients[..|clients| - 1];
      var last := clients[|clients| - 1];
      DeliveriesMeaning(init, msg);
      var ds := Deliveries(clients, msg);
      var di := Deliveries(init, msg);
      var extra: set<nat> := if last.readyState == Open then {last.id} else {};
      assert ds == di + (if last.readyState == Open then [Send(last.id, msg)] else []);
      assert Recipients(ds) == Recipients(di) + extra by {
        forall x | x in Recipients(ds) ensures x in Recipients(di) + extra {
          var i :| 0 <= i < |ds| && ds[i].clientId == x;
          if i < |di| {
            assert di[i] == ds[i];
          }
        }
        forall x | x in Recipients(di) + extra ensures x in Recipients(ds) {
          if x in Recipients(di) {
            var i :| 0 <= i < |di| && di[i].clientId == x;
            assert ds[i] == di[i];
          } else {
            assert ds[|ds| - 1].clientId == x;
          }
        }
      }
      assert OpenIds(clients) == OpenIds(init) + extra by {
        forall x | x in OpenIds(clients) ensures x in OpenIds(init) + extra {
          var j :| 0 <= j < |clients| && clients[j].readyState == Open && clients[j].id == x;
          if j < |init| {
            assert init[j] == clients[j];
          }
        }
        forall x | x in OpenIds(init) + extra ensures x in OpenIds(clients) {
          if x in OpenIds(init) {
            var j :| 0 <= j < |init| && init[j].readyState == Open && init[j].id == x;
            assert clients[j] == init[j];
          } else {
            assert clients[|clients| - 1].id == x;
          }
        }
      }
    }
  }

  predicate DistinctIds(clients: seq<Client>)
  {
    forall i, j :: 0 <= i < j < |clients| ==> clients[i].id != clients[j].id
  }

  function IndexOfClient(clients: seq<Client>, id: nat): (k: int)
    ensures -1 <= k < |clients|
    ensures k >= 0 ==> clients[k].id == id
    ensures k < 0 ==> forall i :: 0 <= i < |clients| ==> clients[i].id != id
  {
    if clients == [] then -1
    else if clients[|clients| - 1].id == id then |clients| - 1
    else IndexOfClient(clients[..|clients| - 1], id)
  }

  /** Extending the written prefix by one driver either replaces the overlay's
      entry at that index or appends to the overlay. */
  lemma OverlayStep(before: seq<Driver>, list: seq<Driver>, i: nat)
    requires i < |list|
    ensures |Overlay(before, list[..i])| >= i
    ensures i < |Overlay(before, list[..i])| ==>
      Overlay(before, list[..i + 1]) == Overlay(before, list[..i])[i := list[i]]
    ensures i == |Overlay(before, list[..i])| ==>
      Overlay(before, list[..i + 1]) == Overlay(before, list[..i]) + [list[i]]
  {
    var o := Overlay(before, list[..i]);
    var o' := Overlay(before, list[..i + 1]);
    assert list[..i + 1] == list[..i] + [list[i]];
    if i < |before| {
      assert o == list[..i] + before[i..];
      if i + 1 < |before| {
        assert o' == list[..i + 1] + before[i + 1..];
      } else {
        assert o' == list[..i + 1];
      }
      assert |o'| == |o|;
      forall k | 0 <= k < |o| ensures o'[k] == o[i := list[i]][k] {
      }
    }
  }

  /** One step of the source's `forEach` over the generated list: setting the
      driver at index `i` keeps the keys `1..m` and extends the overlay by one. */
  lemma WriteDriverStep(m: seq<Entry>, before: seq<Driver>, list: seq<Driver>, i: nat)
    requires KeysArePositions(m) && |before| <= 10 && i < |list| <= 10
    requires Values(m) == Overlay(before, list[..i])
    requires forall j :: 0 <= j < |list| ==> list[j].position == j + 1
    ensures var r := MapSet(m, list[i].position, list[i]);
      KeysArePositions(r) && |r| <= 10 && r != [] &&
      Values(r) == Overlay(before, list[..i + 1])
  {
    var d := list[i];
    OverlayStep(before, list, i);
    MapSetConsecutiveValues(m, 1, i, d);
    OverlayMeaning(before, list[..i + 1]);
  }

  /** The driver at index `j` of the generated list is the one built for `j`. */
  lemma {:induction false} GeneratedDriversAt(n: nat, draw: nat -> Draw, j: nat)
    requires j < n
    ensures GeneratedDrivers(n, draw)[j] == GeneratedDriver(j, draw(j))
  {
    var prev := GeneratedDrivers(n - 1, draw);
    assert GeneratedDrivers(n, draw) == prev + [GeneratedDriver(n - 1, draw(n - 1))];
    if j < n - 1 {
      GeneratedDriversAt(n - 1, draw, j);
      assert GeneratedDrivers(n, draw)[j] == prev[j];
    }
  }

  /** Every generated driver satisfies the driver facts at its own position. */
  lemma GeneratedDriversFacts(n: nat, draw: nat -> Draw)
    requires n <= 999
    ensures forall j :: 0 <= j < n ==>
      GeneratedDrivers(n, draw)[j].position == j + 1 && DriverFacts(GeneratedDrivers(n, draw)[j], j + 1)
  {
    forall j | 0 <= j < n
      ensures GeneratedDrivers(n, draw)[j].position == j + 1 && DriverFacts(GeneratedDrivers(n, draw)[j], j + 1)
    {
      GeneratedDriversAt(n, draw, j);
      GeneratedDriverFacts(j, draw(j));
    }
  }

  /** The loop of `updateRaceStateWithRealData` that pushes one driver per index:
      the list has `count` drivers, driver `i` sits at position `i + 1`, and each
      satisfies the driver facts at that position. */
  method BuildDrivers(count: nat, draw: nat -> Draw) returns (list: seq<Driver>)
    requires count <= 999
    ensures list == GeneratedDrivers(count, draw)
    ensures |list| == count
    ensures forall j :: 0 <= j < count ==> list[j].position == j + 1
  {
    list := [];
    for i := 0 to count
      invariant list == GeneratedDrivers(i, draw)
    {
      list := list + [GeneratedDriver(i, draw(i))];
    }
    forall j | 0 <= j < count ensures list[j].position == j + 1 {
      GeneratedDriversAt(count, draw, j);
    }
  }

  // ---------------------------------------------------------------------------
  // The service object

  /** The UDP socket as the service sees it: the constructor's socket, created
      but never bound; a socket bound to a port; a closed socket. */
  datatype SocketState = Created | Listening(port: JsScalar) | Shut

  /** The listener lifecycle calls, in the order the service performs them. */
  datatype ListenerOp = Stop | Configure(config: ServerConfig) | Start(port: JsScalar)

  class AssettoCorsaUdpService {
    var currentSession: Option<Session>
    var drivers: seq<Entry>
    var isConnected: bool
    var serverConfig: ServerConfig
    var clients: seq<Client>
    var udpSocket: SocketState
    /** Every stop, configure and start the service has performed. */
    ghost var history: seq<ListenerOp>

    /** The store's invariant: the driver keys are exactly `1..m` in insertion
        order with `m <= 10`, each driver fits its position, and a session exists
        exactly when some driver does. */
    ghost predicate Valid()
      reads this`currentSession, this`drivers, this`clients
    {
      KeysArePositions(drivers) && |drivers| <= 10 &&
      (currentSession.None? <==> drivers == []) &&
      (currentSession.Some? ==> currentSession.value == DemoSession) &&
      ListFits(Values(drivers)) &&
      DistinctIds(clients)
    }

    constructor ()
      ensures Valid()
      ensures currentSession.None? && drivers == [] && !isConnected
      ensures serverConfig == DefaultConfig && clients == [] && udpSocket == Created && history == []
    {
      currentSession := None;
      drivers := [];
      isConnected := false;
      serverConfig := DefaultConfig;
      clients := [];
      udpSocket := Created;
      history := [];
    }

    /** `getConnectionStatus`. */
    function GetConnectionStatus(): string
      reads this
    {
      if isConnected then "connected" else "disconnected"
    }

    /** `getCurrentRaceState`. */
    function GetCurrentRaceState(now: string): LiveTimingData
      reads this
    {
      Snapshot(currentSession, drivers, now)
    }

    /** The UDP `message` handler: any datagram marks the service connected, then
        the packet is parsed (and may be broadcast). */
    method OnDatagram(msg: seq<bv8>, draw: nat -> Draw, now: string) returns (sends: seq<Send>)
      requires Valid()
      modifies this`isConnected, this`currentSession, this`drivers
      ensures Valid() && isConnected && GetConnectionStatus() == "connected"
      ensures |msg| < 4 ==> currentSession == old(currentSession) && drivers == old(drivers) && sends == []
      ensures |msg| >= 4 ==>
        currentSession == Some(DemoSession) &&
        Values(drivers) == Overlay(old(Values(drivers)), GeneratedDrivers(DriverCount(|msg|), draw))
      ensures |msg| >= 4 && clients == [] ==> sends == []
      ensures |msg| >= 4 && clients != [] ==> sends == Deliveries(clients, LiveUpdate(GetCurrentRaceState(now)))
    {
      // The source sets the flag only when it was clear, to emit the status
      // event once; the flag ends up set either way.
      isConnected := true;
      sends := ParseUdpPacket(msg, draw, now);
    }

    /** `parseUdpPacket`: datagrams under four bytes are dropped; others update
        the store and trigger a broadcast. */
    method ParseUdpPacket(msg: seq<bv8>, draw: nat -> Draw, now: string) returns (sends: seq<Send>)
      requires Valid()
      modifies this`currentSession, this`drivers
      ensures Valid()
      ensures |msg| < 4 ==> currentSession == old(currentSession) && drivers == old(drivers) && sends == []
      ensures |msg| >= 4 ==>
        currentSession == Some(DemoSession) &&
        Values(drivers) == Overlay(old(Values(drivers)), GeneratedDrivers(DriverCount(|msg|), draw))
      ensures |msg| >= 4 && clients == [] ==> sends == []
      ensures |msg| >= 4 && clients != [] ==> sends == Deliveries(clients, LiveUpdate(GetCurrentRaceState(now)))
    {
      if |msg| < 4 {
        return [];
      }
      UpdateRaceStateWithRealData(msg, draw);
      var message;
      message, sends := BroadcastUpdate(now);
    }

    /** `updateRaceStateWithRealData`: builds the driver list for the packet size,
        installs the session and writes each driver into the map by position. */
    method UpdateRaceStateWithRealData(msg: seq<bv8>, draw: nat -> Draw)
      requires Valid()
      modifies this`currentSession, this`drivers
      ensures Valid()
      ensures currentSession == Some(DemoSession)
      ensures Values(drivers) == Overlay(old(Values(drivers)), GeneratedDrivers(DriverCount(|msg|), draw))
    {
      var count := DriverCount(|msg|);
      var list := BuildDrivers(count, draw);
      GeneratedDriversFacts(count, draw);
      ghost var before := Values(drivers);
      currentSession := Some(DemoSession);
      WriteDrivers(list);
      OverlayFits(before, list);
    }

    /** The closing `forEach` of `updateRaceStateWithRealData`: `drivers.set(position,
        driver)` for each driver in turn. With the keys `1..m` and the list at
        positions `1..n`, the result holds the list over the previous drivers. */
    method WriteDrivers(list: seq<Driver>)
      requires KeysArePositions(drivers) && |drivers| <= 10 && |list| <= 10
      requires forall j :: 0 <= j < |list| ==> list[j].position == j + 1
      modifies this`drivers
      ensures KeysArePositions(drivers) && |drivers| <= 10
      ensures Values(drivers) == Overlay(old(Values(drivers)), list)
      ensures list != [] ==> drivers != []
      ensures list == [] ==> drivers == old(drivers)
    {
      ghost var before := Values(drivers);
      for i := 0 to |list|
        invariant KeysArePositions(drivers) && |drivers| <= 10
        invariant Values(drivers) == Overlay(before, list[..i])
        invariant i > 0 ==> drivers != []
        invariant i == 0 ==> drivers == old(drivers)
      {
        WriteDriverStep(drivers, before, list, i);
        drivers := MapSet(drivers, list[i].position, list[i]);
      }
      assert list[..|list|] == list;
    }

    /** `broadcastUpdate`: nothing without clients or without a session; otherwise
        one message, built once, is sent to every OPEN client in set order. */
    method BroadcastUpdate(now: string) returns (message: Option<ServerMessage>, sends: seq<Send>)
      ensures clients == [] || currentSession.None? ==> message.None? && sends == []
      ensures clients != [] && currentSession.Some? ==>
        message == Some(LiveUpdate(GetCurrentRaceState(now))) && sends == Deliveries(clients, message.value)
    {
      if |clients| == 0 {
        return None, [];
      }
      if currentSession.None? {
        return None, [];
      }
      var msg := LiveUpdate(Snapshot(currentSession, drivers, now));
      message := Some(msg);
      sends := [];
      for i := 0 to |clients|
        invariant sends == Deliveries(clients[..i], msg)
      {
        assert clients[..i + 1][..i] == clients[..i];
        if clients[i].readyState == Open {
          sends := sends + [Send(clients[i].id, msg)];
        }
      }
      assert clients[..|clients|] == clients;
    }

    /** `configureServer`: stores and returns the configuration for `race`. */
    method ConfigureServer(race: RaceArg) returns (config: ServerConfig)
      modifies this`serverConfig, this`history
      ensures serverConfig == ConfigFor(race) && config == serverConfig
      ensures history == old(history) + [Configure(config)]
    {
      serverConfig := ConfigFor(race);
      config := serverConfig;
      history := history + [Configure(config)];
    }

    /** `stopUdpListener`: the constructor always creates a socket, so there is
        always one to close. */
    method StopUdpListener()
      modifies this`udpSocket, this`history
      ensures udpSocket == Shut
      ensures history == old(history) + [Stop]
    {
      udpSocket := Shut;
      history := history + [Stop];
    }

    /** `startUdpListener(port)`: closes the old socket and binds a new one. */
    method StartUdpListener(port: JsScalar)
      modifies this`udpSocket, this`history
      ensures udpSocket == Listening(port) && history == old(history) + [Start(port)]
    {
      udpSocket := Listening(port);
      history := history + [Start(port)];
    }

    /** `clearData`: back to the disconnected baseline. */
    method ClearData()
      requires Valid()
      modifies this`currentSession, this`drivers, this`isConnected
      ensures Valid()
      ensures currentSession.None? && drivers == [] && !isConnected
      ensures GetConnectionStatus() == "disconnected"
      ensures forall now :: GetCurrentRaceState(now) == DisconnectedBaseline(now)
    {
      currentSession := None;
      drivers := [];
      isConnected := false;
    }

    /** The UDP socket's `error` handler: the service reports itself disconnected
        and keeps its store. */
    method OnSocketError()
      requires Valid()
      modifies this`isConnected
      ensures Valid() && !isConnected
      ensures GetConnectionStatus() == "disconnected"
    {
      isConnected := false;
    }

    /** A client's push-channel upgrade completed: it joins the set (once). */
    method OnClientConnected(c: Client)
      requires Valid()
      modifies this`clients
      ensures Valid()
      ensures IndexOfClient(old(clients), c.id) >= 0 ==> clients == old(clients)
      ensures IndexOfClient(old(clients), c.id) < 0 ==> clients == old(clients) + [c]
    {
      if IndexOfClient(clients, c.id) < 0 {
        clients := clients + [c];
      }
    }

    /** The transport moved a client's socket to another ready state. */
    method OnClientReadyState(id: nat, state: ReadyState)
      requires Valid()
      modifies this`clients
      ensures Valid()
      ensures var k := IndexOfClient(old(clients), id);
        clients == if k < 0 then old(clients) else old(clients)[k := Client(id, state)]
    {
      var k := IndexOfClient(clients, id);
      if k >= 0 {
        clients := clients[k := Client(id, state)];
      }
    }

    /** A client's `close` or `error` event: it leaves the set. */
    method OnClientGone(id: nat)
      requires Valid()
      modifies this`clients
      ensures Valid()
      ensures var k := IndexOfClient(old(clients), id);
        clients == if k < 0 then old(clients) else old(clients)[..k] + old(clients)[k + 1..]
      ensures forall i :: 0 <= i < |clients| ==> clients[i].id != id
    {
      var k := IndexOfClient(clients, id);
      if k >= 0 {
        clients := clients[..k] + clients[k + 1..];
      }
    }
  }
}
