/** The league server's request logic: the administrator list read from the
    ADMIN_USERS setting, the 401/403 gates, race registration and its
    championship side effect, "largest id + 1, prepend" item creation, the
    pilots count, and the two routes that reconfigure the telemetry listener.
    The JSON files are sequences held by one server object. */
module ServerRoutes {
  import opened JsText
  import U = UdpService

  // ---------------------------------------------------------------------------
  // Administrators

  /** An entry of the administrator map: the password of a `user:password`
      token, or `true`. */
  datatype AdminValue = Password(secret: string) | Flag

  type Admins = map<string, AdminValue>

  const SteamPrefix: string := "steam_"

  /** `t` matches `/^steam_(\d+)$/`. */
  predicate IsSteamToken(t: string)
  {
    |t| > |SteamPrefix| && t[..|SteamPrefix|] == SteamPrefix && AllDigits(t[|SteamPrefix|..])
  }

  /** A token part with no white space, ':' or ','. */
  predicate Plain(s: string)
  {
    forall i :: 0 <= i < |s| ==> !IsJsSpace(s[i]) && s[i] != ':' && s[i] != ','
  }

  /** One step of the reduce over the comma-separated tokens of ADMIN_USERS:
      the token is trimmed, and a blank token is skipped. */
  function AddAdminToken(acc: Admins, token: string): Admins
  {
    ReadToken(acc, Trim(token))
  }

  /** The entries a trimmed token `t` adds. */
  function ReadToken(acc: Admins, t: string): Admins
  {
    if t == "" then acc
    else if ':' in t then WithPassword(acc, Split(t, ':'))
    else if AllDigits(t) then acc[SteamPrefix + t := Flag][t := Flag]
    else if IsSteamToken(t) then acc[t := Flag][t[|SteamPrefix|..] := Flag]
    else acc[t := Flag]
  }

  /** `const [u, p] = t.split(':'); if (u) acc[u.trim()] = (p || '').trim()`. */
  function WithPassword(acc: Admins, parts: seq<string>): Admins
    requires parts != []
  {
    if parts[0] == "" then acc
    else acc[Trim(parts[0]) := Password(Trim(if |parts| > 1 then parts[1] else ""))]
  }

  /** The reduce itself: a left fold from the empty map. */
  function AdminsFrom(tokens: seq<string>): Admins
  {
    if tokens == [] then map[]
    else AddAdminToken(AdminsFrom(tokens[..|tokens| - 1]), tokens[|tokens| - 1])
  }

  /** `getAdmins()` for the ADMIN_USERS string `raw` (unset reads as ""). */
  function GetAdmins(raw: string): Admins
  {
    if raw == "" then map[] else AdminsFrom(Split(raw, ','))
  }

  /** `admins[username]` is truthy: a `true` flag or a non-empty password. */
  predicate IsAdmin(admins: Admins, username: string)
  {
    username in admins && (admins[username].Flag? || admins[username].secret != "")
  }

  lemma PlainHasNoSpaceAtEnds(s: string)
    requires Plain(s)
    ensures Trim(s) == s
  {
    TrimOfTrimmed(s);
  }

  /** The administrators of a comma-joined list are those of its tokens. */
  lemma GetAdminsOfJoin(tokens: seq<string>)
    requires tokens != []
    requires forall i :: 0 <= i < |tokens| ==> ',' !in tokens[i]
    ensures GetAdmins(Join(tokens, ',')) == AdminsFrom(tokens)
  {
    SplitJoin(tokens, ',');
    if Join(tokens, ',') == "" {
      assert tokens == [""];
      assert tokens[..0] == [];
      assert Trim("") == "";
    }
  }

  /** A token of white space only is skipped. */
  lemma BlankTokenSkipped(acc: Admins, token: string)
    requires forall i :: 0 <= i < |token| ==> IsJsSpace(token[i])
    ensures AddAdminToken(acc, token) == acc
  {
    TrimPadded(token, "", "");
    assert token + "" + "" == token;
  }

  lemma {:induction false} BlankTokensAdmitNobody(tokens: seq<string>)
    requires forall i, j :: 0 <= i < |tokens| && 0 <= j < |tokens[i]| ==> IsJsSpace(tokens[i][j])
    ensures AdminsFrom(tokens) == map[]
  {
    if tokens != [] {
      var n := |tokens| - 1;
      BlankTokensAdmitNobody(tokens[..n]);
      BlankTokenSkipped(map[], tokens[n]);
    }
  }

  /** ADMIN_USERS made of white space and commas names no administrator. */
  lemma BlankSettingAdmitsNobody(raw: string)
    requires forall i :: 0 <= i < |raw| ==> IsJsSpace(raw[i]) || raw[i] == ','
    ensures GetAdmins(raw) == map[]
  {
    if raw != "" {
      var parts := Split(raw, ',');
      SplitPiecesComeFromInput(raw, ',');
      SplitPiecesHaveNoSeparator(raw, ',');
      forall i, j | 0 <= i < |parts| && 0 <= j < |parts[i]|
        ensures IsJsSpace(parts[i][j])
      {
        assert parts[i][j] in raw;
        assert parts[i][j] != ',';
      }
      BlankTokensAdmitNobody(parts);
    }
  }

  /** A plain token part is a trimmed string with no ':'. */
  lemma PlainFacts(s: string)
    requires Plain(s)
    ensures Trim(s) == s && ':' !in s
  {
    TrimOfTrimmed(s);
  }

  /** A token whose first and last characters are plain is not trimmed. */
  lemma PlainEndsKeepToken(acc: Admins, t: string)
    requires t != [] && Plain([t[0]]) && (Plain([t[|t| - 1]]) || t[|t| - 1] == ':')
    ensures AddAdminToken(acc, t) == ReadToken(acc, t)
  {
    assert [t[0]][0] == t[0];
    assert !IsJsSpace(t[|t| - 1]) by {
      if t[|t| - 1] != ':' {
        assert [t[|t| - 1]][0] == t[|t| - 1];
      }
    }
    TrimOfTrimmed(t);
  }

  /** `u:p` stores the password `p` for `u`, which is an administrator exactly
      when `p` is not empty. */
  lemma PasswordToken(acc: Admins, u: string, p: string)
    requires u != "" && Plain(u) && Plain(p)
    ensures AddAdminToken(acc, u + ":" + p) == acc[u := Password(p)]
    ensures IsAdmin(AddAdminToken(acc, u + ":" + p), u) <==> p != ""
  {
    var t := u + ":" + p;
    assert [t[0]] == u[..1];
    assert t[|t| - 1] == if p == "" then ':' else p[|p| - 1];
    assert p != "" ==> [t[|t| - 1]] == p[|p| - 1..];
    PlainEndsKeepToken(acc, t);
    PasswordPieces(acc, u, p);
  }

  lemma PasswordPieces(acc: Admins, u: string, p: string)
    requires u != "" && Plain(u) && Plain(p)
    ensures ReadToken(acc, u + ":" + p) == acc[u := Password(p)]
  {
    var t := u + ":" + p;
    assert t[|u|] == ':';
    PlainFacts(u);
    PlainFacts(p);
    SplitTwo(u, p);
    assert ReadToken(acc, t) == WithPassword(acc, [u, p]);
  }

  lemma SplitTwo(u: string, p: string)
    requires ':' !in u && ':' !in p
    ensures Split(u + ":" + p, ':') == [u, p]
  {
    SplitNoSeparator(p, ':');
    SplitAt(u, ':', p);
    assert u + [':'] + p == u + ":" + p;
  }

  lemma SplitThree(u: string, p: string, x: string)
    requires ':' !in u && ':' !in p && ':' !in x
    ensures Split(u + ":" + p + ":" + x, ':') == [u, p, x]
  {
    SplitTwo(p, x);
    SplitAt(u, ':', p + ":" + x);
    assert u + [':'] + (p + ":" + x) == u + ":" + p + ":" + x;
  }

  /** Only the first two ':' pieces of a token are used. */
  lemma PasswordTokenExtraPieces(acc: Admins, u: string, p: string, x: string)
    requires u != "" && Plain(u) && Plain(p) && Plain(x)
    ensures AddAdminToken(acc, u + ":" + p + ":" + x) == acc[u := Password(p)]
  {
    var t := u + ":" + p + ":" + x;
    assert [t[0]] == u[..1];
    assert t[|t| - 1] == if x == "" then ':' else x[|x| - 1];
    assert x != "" ==> [t[|t| - 1]] == x[|x| - 1..];
    PlainEndsKeepToken(acc, t);
    assert t[|u|] == ':';
    PlainFacts(u);
    PlainFacts(p);
    PlainFacts(x);
    SplitThree(u, p, x);
    assert ReadToken(acc, t) == WithPassword(acc, [u, p, x]);
  }

  /** An all-digit token D admits both D and steam_D. */
  lemma DigitsToken(acc: Admins, d: string)
    requires d != "" && AllDigits(d)
    ensures AddAdminToken(acc, d) == acc[SteamPrefix + d := Flag][d := Flag]
    ensures IsAdmin(AddAdminToken(acc, d), d) && IsAdmin(AddAdminToken(acc, d), SteamPrefix + d)
  {
    assert IsDigit(d[0]) && IsDigit(d[|d| - 1]);
    TrimOfTrimmed(d);
    assert ':' !in d by {
      forall i | 0 <= i < |d| ensures d[i] != ':' {
        assert IsDigit(d[i]);
      }
    }
  }

  /** A `steam_D` token admits exactly what the bare D token admits. */
  lemma SteamToken(acc: Admins, d: string)
    requires d != "" && AllDigits(d)
    ensures AddAdminToken(acc, SteamPrefix + d) == AddAdminToken(acc, d)
  {
    var t := SteamPrefix + d;
    assert IsDigit(d[|d| - 1]);
    assert t[0] == 's' && t[|t| - 1] == d[|d| - 1];
    TrimOfTrimmed(t);
    assert ':' !in t by {
      forall i | 0 <= i < |t| ensures t[i] != ':' {
        if i >= |SteamPrefix| {
          assert t[i] == d[i - |SteamPrefix|];
          assert IsDigit(d[i - |SteamPrefix|]);
        }
      }
    }
    assert !IsDigit(t[0]);
    assert t[..|SteamPrefix|] == SteamPrefix && t[|SteamPrefix|..] == d;
    DigitsToken(acc, d);
  }

  /** Any other plain token admits itself and nothing else. */
  lemma NameToken(acc: Admins, t: string)
    requires t != "" && Plain(t) && !AllDigits(t) && !IsSteamToken(t)
    ensures AddAdminToken(acc, t) == acc[t := Flag]
  {
    PlainHasNoSpaceAtEnds(t);
  }

  /** Tokens are trimmed before they are read. */
  lemma PaddedToken(acc: Admins, pre: string, t: string, post: string)
    requires forall k :: 0 <= k < |pre| ==> IsJsSpace(pre[k])
    requires forall k :: 0 <= k < |post| ==> IsJsSpace(post[k])
    requires t == [] || (!IsJsSpace(t[0]) && !IsJsSpace(t[|t| - 1]))
    ensures AddAdminToken(acc, pre + t + post) == AddAdminToken(acc, t)
  {
    TrimPadded(pre, t, post);
    TrimOfTrimmed(t);
  }

  // ---------------------------------------------------------------------------
  // Gates

  /** Who is asking: no session user, or a signed-in user name. */
  datatype Visitor = Anonymous | SignedIn(username: string)

  /** A middleware decision: go on to the handler, or answer with a status. */
  datatype Gate = Proceed | Refuse(status: int)

  /** `requireAuth`: 401 without a session user. */
  function RequireAuth(v: Visitor): (g: Gate)
    ensures g.Proceed? <==> v.SignedIn?
    ensures g.Refuse? ==> g.status == 401
  {
    if v.SignedIn? then Proceed else Refuse(401)
  }

  /** `requireAdmin`: 401 without a session user, 403 for a user whose entry in
      the administrator map is missing or falsy. */
  function RequireAdmin(adminUsers: string, v: Visitor): (g: Gate)
    ensures g.Proceed? <==> v.SignedIn? && IsAdmin(GetAdmins(adminUsers), v.username)
    ensures g == Refuse(401) <==> v.Anonymous?
    ensures g.Refuse? ==> g.status == 401 || g.status == 403
  {
    if v.Anonymous? then Refuse(401)
    else if !IsAdmin(GetAdmins(adminUsers), v.username) then Refuse(403)
    else Proceed
  }

  /** `ADMIN_USERS="alice:"` leaves alice with an empty password, which is falsy. */
  lemma EmptyPasswordIsRefused(u: string)
    requires u != "" && Plain(u)
    ensures RequireAdmin(u + ":", SignedIn(u)) == Refuse(403)
  {
    var raw := u + ":";
    assert ',' !in raw by {
      assert raw[|u|] == ':';
      forall i | 0 <= i < |raw| ensures raw[i] != ',' {
        if i < |u| {
          assert raw[i] == u[i];
        }
      }
    }
    SingleToken(raw);
    PasswordToken(map[], u, "");
    assert u + ":" + "" == raw;
    assert !IsAdmin(GetAdmins(raw), u);
  }

  /** A setting without commas is a single token. */
  lemma SingleToken(raw: string)
    requires raw != "" && ',' !in raw
    ensures GetAdmins(raw) == AddAdminToken(map[], raw)
  {
    SplitNoSeparator(raw, ',');
    assert [raw][..0] == [];
    assert AdminsFrom([raw]) == AddAdminToken(AdminsFrom([]), raw);
  }

  /** With a Steam id D listed, the session user `steam_D` passes requireAdmin. */
  lemma SteamIdIsAdmitted(d: string)
    requires d != "" && AllDigits(d)
    ensures RequireAdmin(d, SignedIn(SteamPrefix + d)) == Proceed
  {
    assert ',' !in d by {
      forall i | 0 <= i < |d| ensures d[i] != ',' {
        assert IsDigit(d[i]);
      }
    }
    SingleToken(d);
    DigitsToken(map[], d);
    assert IsAdmin(GetAdmins(d), SteamPrefix + d);
  }

  // ---------------------------------------------------------------------------
  // Records kept in the JSON files

  /** An entry of a race's participant list. */
  datatype Participant = Participant(username: string, registeredAt: string)

  /** A race record: its id (absent, a string or a number: a PUT body may
      store any of these), its optional participant list, the stored pilots
      count, its championship category and its telemetry endpoint fields. */
  datatype Race = Race(
    id: JsScalar,
    participants: Option<seq<Participant>>,
    pilots: int,
    championship: Option<string>,
    endpoint: U.RaceEndpoint)

  /** A driver row of a championship standing. */
  datatype StandingDriver = StandingDriver(name: string, points: int, team: string)

  /** A championship standing: its category and its optional lists. */
  datatype Standing = Standing(
    category: Option<string>,
    registeredPilots: Option<seq<string>>,
    drivers: Option<seq<StandingDriver>>)

  /** A news post; `content` stands for the rest of the request body. */
  datatype NewsItem = NewsItem(id: JsScalar, author: Option<string>, content: string)

  datatype Achievement = Achievement(id: JsScalar, content: string)

  datatype Account = Account(username: string, displayName: Option<string>)

  /** `findIndex`: the first index whose element satisfies `p`, or -1. */
  function FirstIndex<T>(s: seq<T>, p: T -> bool): (k: int)
    ensures -1 <= k < |s|
    ensures k >= 0 ==> p(s[k]) && forall j :: 0 <= j < k ==> !p(s[j])
    ensures k < 0 ==> forall j :: 0 <= j < |s| ==> !p(s[j])
  {
    FirstIndexFrom(s, p, 0)
  }

  function FirstIndexFrom<T>(s: seq<T>, p: T -> bool, i: nat): (k: int)
    requires i <= |s|
    requires forall j :: 0 <= j < i ==> !p(s[j])
    ensures -1 <= k < |s|
    ensures k >= 0 ==> i <= k && p(s[k]) && forall j :: 0 <= j < k ==> !p(s[j])
    ensures k < 0 ==> forall j :: 0 <= j < |s| ==> !p(s[j])
    decreases |s| - i
  {
    if i == |s| then -1 else if p(s[i]) then i else FirstIndexFrom(s, p, i + 1)
  }

  /** The race `find(x => x.id === id)` selects; a NaN id matches nothing. */
  function RaceIndex(races: seq<Race>, id: Option<int>): (k: int)
    ensures -1 <= k < |races|
    ensures k >= 0 ==> id.Some? && races[k].id == Num(id.value) && forall j :: 0 <= j < k ==> races[j].id != Num(id.value)
    ensures k < 0 ==> forall j :: 0 <= j < |races| ==> id.None? || races[j].id != Num(id.value)
  {
    if id.None? then -1 else FirstIndex(races, (r: Race) => r.id == Num(id.value))
  }

  /** `race.participants || []`. */
  function ParticipantsOf(r: Race): seq<Participant>
  {
    if r.participants.Some? then r.participants.value else []
  }

  /** `participants.map(p => p.username)`. */
  function Usernames(ps: seq<Participant>): seq<string>
  {
    seq(|ps|, i requires 0 <= i < |ps| => ps[i].username)
  }

  /** The index `findIndex(p => p.username === u)` returns. */
  function UserIndex(ps: seq<Participant>, u: string): (k: int)
    ensures -1 <= k < |ps|
    ensures k >= 0 <==> u in Usernames(ps)
    ensures k >= 0 ==> ps[k].username == u && u !in Usernames(ps[..k])
  {
    var k := FirstIndex(ps, (x: Participant) => x.username == u);
    assert k >= 0 ==> Usernames(ps)[k] == u;
    k
  }

  predicate Distinct(names: seq<string>)
  {
    forall i, j :: 0 <= i < j < |names| ==> names[i] != names[j]
  }

  /** The race after `participants.push(p)`. */
  function WithParticipant(r: Race, p: Participant): Race
  {
    r.(participants := Some(ParticipantsOf(r) + [p]))
  }

  /** The race after `participants.splice(i, 1)`. */
  function WithoutParticipantAt(r: Race, i: int): Race
    requires 0 <= i < |ParticipantsOf(r)|
  {
    var ps := ParticipantsOf(r);
    r.(participants := Some(ps[..i] + ps[i + 1..]))
  }

  /** A new registration adds the user exactly once at the end, so a list
      without duplicates keeps none. */
  lemma RegisterAddsOnce(r: Race, p: Participant)
    requires p.username !in Usernames(ParticipantsOf(r))
    ensures Usernames(ParticipantsOf(WithParticipant(r, p))) == Usernames(ParticipantsOf(r)) + [p.username]
    ensures multiset(Usernames(ParticipantsOf(WithParticipant(r, p))))[p.username] == 1
    ensures Distinct(Usernames(ParticipantsOf(r))) ==> Distinct(Usernames(ParticipantsOf(WithParticipant(r, p))))
  {
    var before := Usernames(ParticipantsOf(r));
    var after := Usernames(ParticipantsOf(WithParticipant(r, p)));
    assert after == before + [p.username];
    assert multiset(before)[p.username] == 0;
  }

  lemma UsernamesWithout(ps: seq<Participant>, k: int)
    requires 0 <= k < |ps|
    ensures Usernames(ps[..k] + ps[k + 1..]) == Usernames(ps)[..k] + Usernames(ps)[k + 1..]
  {
  }

  /** Removing index `k` removes one copy of `s[k]` from the multiset. */
  lemma RemoveAtMultiset(s: seq<string>, k: int)
    requires 0 <= k < |s|
    ensures multiset(s[..k] + s[k + 1..]) == multiset(s) - multiset{s[k]}
  {
    assert s == s[..k] + [s[k]] + s[k + 1..];
  }

  /** In a list without duplicates, removing index `k` removes `s[k]` entirely. */
  lemma DistinctRemoveAt(s: seq<string>, k: int)
    requires 0 <= k < |s| && Distinct(s)
    ensures s[k] !in s[..k] + s[k + 1..]
  {
    var rest := s[..k] + s[k + 1..];
    forall j | 0 <= j < |rest| ensures rest[j] != s[k] {
      if j < k {
        assert rest[j] == s[j];
      } else {
        assert rest[j] == s[j + 1];
      }
    }
  }

  /** Unregistering removes exactly one entry of the user, the first; a user
      listed once is then gone. */
  lemma UnregisterRemovesFirst(ps: seq<Participant>, u: string)
    requires u in Usernames(ps)
    ensures var k := UserIndex(ps, u);
      var rest := ps[..k] + ps[k + 1..];
      u !in Usernames(ps[..k]) && ps[k].username == u &&
      multiset(Usernames(rest)) == multiset(Usernames(ps)) - multiset{u} &&
      (Distinct(Usernames(ps)) ==> u !in Usernames(rest))
  {
    var k := UserIndex(ps, u);
    var names := Usernames(ps);
    UsernamesWithout(ps, k);
    RemoveAtMultiset(names, k);
    if Distinct(names) {
      DistinctRemoveAt(names, k);
    }
  }

  /** `splice(k, 1)` keeps every other element, in order. */
  lemma RemoveAtKeepsOrder<T>(s: seq<T>, k: int)
    requires 0 <= k < |s|
    ensures var rest := s[..k] + s[k + 1..];
      |rest| == |s| - 1 &&
      (forall j :: 0 <= j < k ==> rest[j] == s[j]) &&
      (forall j :: k <= j < |rest| ==> rest[j] == s[j + 1])
  {
  }

  /** Unregistering right after a fresh registration restores the list. */
  lemma RegisterThenUnregister(ps: seq<Participant>, p: Participant)
    requires p.username !in Usernames(ps)
    ensures var after := ps + [p];
      UserIndex(after, p.username) == |ps| &&
      after[..|ps|] + after[|ps| + 1..] == ps
  {
    var after := ps + [p];
    assert Usernames(after) == Usernames(ps) + [p.username];
    assert forall i :: 0 <= i < |ps| ==> Usernames(ps)[i] == ps[i].username;
    assert after[..|ps|] == ps;
  }

  // ---------------------------------------------------------------------------
  // Championship side effect of a registration

  function PilotsOf(s: Standing): seq<string>
  {
    if s.registeredPilots.Some? then s.registeredPilots.value else []
  }

  function DriversOf(s: Standing): seq<StandingDriver>
  {
    if s.drivers.Some? then s.drivers.value else []
  }

  /** `drivers.map(d => d.name)`. */
  function DriverNames(ds: seq<StandingDriver>): seq<string>
  {
    seq(|ds|, i requires 0 <= i < |ds| => ds[i].name)
  }

  /** The standing `find(s => s.category === championship)` selects. */
  function StandingIndex(standings: seq<Standing>, championship: string): (k: int)
    ensures -1 <= k < |standings|
    ensures k >= 0 ==> standings[k].category == Some(championship)
    ensures k >= 0 ==> forall j :: 0 <= j < k ==> standings[j].category != Some(championship)
    ensures k < 0 ==> forall j :: 0 <= j < |standings| ==> standings[j].category != Some(championship)
  {
    FirstIndex(standings, (s: Standing) => s.category == Some(championship))
  }

  /** The driver row a registration creates. */
  function NewDriver(u: string): StandingDriver
  {
    StandingDriver(u, 0, "Independent")
  }

  /** The standings after user `u` registered for a race of `championship`: in
      the first standing of that category, `u` joins the registered pilots
      unless already there, and then gets a zero-point driver row unless some
      driver already has that name. */
  function JoinChampionship(standings: seq<Standing>, championship: Option<string>, u: string): seq<Standing>
  {
    if !Present(championship) then standings
    else
      var k := StandingIndex(standings, championship.value);
      if k < 0 then standings
      else
        var s := standings[k];
        if u in PilotsOf(s) then standings
        else
          var drivers := if u in DriverNames(DriversOf(s)) then DriversOf(s) else DriversOf(s) + [NewDriver(u)];
          standings[k := s.(registeredPilots := Some(PilotsOf(s) + [u]), drivers := Some(drivers))]
  }

  /** Only the selected standing can change; there `u` is afterwards both a
      registered pilot and a driver, listed once if the lists had no
      duplicates, and every earlier pilot and driver row is kept. */
  lemma JoinChampionshipEffect(standings: seq<Standing>, championship: Option<string>, u: string)
    ensures var r := JoinChampionship(standings, championship, u);
      |r| == |standings| &&
      (forall j :: 0 <= j < |r| && r[j] != standings[j] ==>
        Present(championship) && j == StandingIndex(standings, championship.value)) &&
      (Present(championship) && StandingIndex(standings, championship.value) >= 0 ==>
        var k := StandingIndex(standings, championship.value);
        r[k].category == standings[k].category &&
        u in PilotsOf(r[k]) &&
        PilotsOf(standings[k]) <= PilotsOf(r[k]) &&
        (u in PilotsOf(standings[k]) ==> r == standings) &&
        (u !in PilotsOf(standings[k]) ==>
          u in DriverNames(DriversOf(r[k])) && DriversOf(standings[k]) <= DriversOf(r[k])) &&
        (Distinct(PilotsOf(standings[k])) ==> Distinct(PilotsOf(r[k]))) &&
        (Distinct(DriverNames(DriversOf(standings[k]))) ==> Distinct(DriverNames(DriversOf(r[k])))))
  {
    if Present(championship) && StandingIndex(standings, championship.value) >= 0 {
      var k := StandingIndex(standings, championship.value);
      var s := standings[k];
      if u !in PilotsOf(s) {
        var r := JoinChampionship(standings, championship, u);
        assert PilotsOf(r[k]) == PilotsOf(s) + [u];
        DistinctAppend(PilotsOf(s), u);
        var names := DriverNames(DriversOf(s));
        if u !in names {
          assert DriverNames(DriversOf(r[k])) == names + [u];
          DistinctAppend(names, u);
        } else {
          assert DriversOf(r[k]) == DriversOf(s);
        }
      }
    }
  }

  lemma DistinctAppend(names: seq<string>, u: string)
    requires u !in names
    ensures Distinct(names) ==> Distinct(names + [u])
  {
  }

  /** Registering the same user twice for the championship changes nothing the
      second time. */
  lemma JoinChampionshipIdempotent(standings: seq<Standing>, championship: Option<string>, u: string)
    ensures var once := JoinChampionship(standings, championship, u);
      JoinChampionship(once, championship, u) == once
  {
    var once := JoinChampionship(standings, championship, u);
    JoinChampionshipEffect(standings, championship, u);
    if Present(championship) {
      var k := StandingIndex(standings, championship.value);
      if k >= 0 {
        assert StandingIndex(once, championship.value) == k by {
          assert once[k].category == Some(championship.value);
          forall j | 0 <= j < k ensures once[j].category != Some(championship.value) {
            assert once[j] == standings[j];
          }
        }
      } else {
        assert once == standings;
      }
    }
  }

  // ---------------------------------------------------------------------------
  // Ids of new items

  /** What `Math.max` reads from `it.id || 0`: 0 for a falsy id, otherwise
      the id converted to a number, with `None` for NaN. */
  function IdNumber(id: JsScalar): Option<int>
  {
    if !Truthy(id) then Some(0) else NumberValue(id)
  }

  /** Every stored id converts to a number. */
  predicate NumericIds(ids: seq<JsScalar>)
  {
    forall i :: 0 <= i < |ids| ==> IdNumber(ids[i]).Some?
  }

  /** `ids.reduce((m, id) => Math.max(m, id || 0), 0)`, with `None` for NaN:
      one id that is not a number makes the whole reduce NaN. */
  function MaxId(ids: seq<JsScalar>): (m: Option<int>)
    ensures m.Some? <==> NumericIds(ids)
    ensures m.Some? ==> m.value >= 0 && forall i :: 0 <= i < |ids| ==> IdNumber(ids[i]).value <= m.value
  {
    if ids == [] then Some(0)
    else
      var n := |ids| - 1;
      var m := MaxId(ids[..n]);
      var last := IdNumber(ids[n]);
      assert forall i :: 0 <= i < n ==> ids[..n][i] == ids[i];
      if m.None? || last.None? then None
      else if last.value > m.value then last else m
  }

  /** The maximum is attained: it is 0 or the number of some id. */
  lemma {:induction false} MaxIdAttained(ids: seq<JsScalar>)
    requires NumericIds(ids)
    ensures MaxId(ids).value == 0 || exists i :: 0 <= i < |ids| && IdNumber(ids[i]) == MaxId(ids)
  {
    if ids != [] {
      var n := |ids| - 1;
      assert forall i :: 0 <= i < n ==> ids[..n][i] == ids[i];
      MaxIdAttained(ids[..n]);
      if MaxId(ids) != IdNumber(ids[n]) && MaxId(ids).value != 0 {
        var i :| 0 <= i < n && IdNumber(ids[..n][i]) == MaxId(ids[..n]);
        assert IdNumber(ids[i]) == MaxId(ids);
      }
    }
  }

  /** `(reduce || 0) + 1`: one more than the largest id while every id is a
      number, so it is positive and differs from every stored id; when some
      id is not a number the reduce is NaN and numbering restarts at 1. */
  function NextId(ids: seq<JsScalar>): (n: int)
    ensures n >= 1
    ensures NumericIds(ids) ==> forall i :: 0 <= i < |ids| ==> ids[i] != Num(n) && IdNumber(ids[i]) != Some(n)
    ensures NumericIds(ids) ==> n == 1 || exists i :: 0 <= i < |ids| && IdNumber(ids[i]) == Some(n - 1)
    ensures !NumericIds(ids) ==> n == 1
  {
    var m := MaxId(ids);
    if m.None? then 1
    else
      MaxIdAttained(ids);
      m.value + 1
  }

  /** The `it.id` values the id reduce reads, in list order, for any kind of item. */
  function Ids<T>(items: seq<T>, id: T -> JsScalar): seq<JsScalar>
  {
    seq(|items|, i requires 0 <= i < |items| => id(items[i]))
  }

  /** While every stored id is a number, the next id differs from the id of
      every item it was computed from. */
  lemma NextIdIsFresh<T>(items: seq<T>, id: T -> JsScalar)
    requires NumericIds(Ids(items, id))
    ensures forall i :: 0 <= i < |items| ==> id(items[i]) != Num(NextId(Ids(items, id)))
  {
    var ids := Ids(items, id);
    forall i | 0 <= i < |items| ensures id(items[i]) != Num(NextId(ids)) {
      assert ids[i] == id(items[i]);
    }
  }

  function RaceId(r: Race): JsScalar { r.id }

  /** A PUT body may store a non-numeric id (`Object.assign` copies it); the
      next POST then reads NaN from the reduce and gives the new race id 1,
      whatever ids the other races carry. */
  lemma {:induction false} NonNumericIdRestartsNumbering(races: seq<Race>, k: int, b: RaceUpdate)
    requires 0 <= k < |races|
    requires b.id == Some(Str("x"))
    ensures NextId(Ids(races[k := WithPilots(Merge(races[k], b))], RaceId)) == 1
  {
    var after := races[k := WithPilots(Merge(races[k], b))];
    var ids := Ids(after, RaceId);
    assert ids[k] == Str("x");
    assert Trim("x") == "x" by { TrimOfTrimmed("x"); }
    assert IdNumber(ids[k]).None?;
  }

  function NewsId(n: NewsItem): JsScalar { n.id }

  function AchievementId(a: Achievement): JsScalar { a.id }

  /** `adminAccount?.displayName || adminUsername`: the display name of the
      first account with that user name when it is non-empty, else the name. */
  function AuthorName(accounts: seq<Account>, username: string): (name: string)
    ensures name == username ||
      exists i :: 0 <= i < |accounts| && accounts[i].username == username && accounts[i].displayName == Some(name) && name != ""
    ensures (forall i :: 0 <= i < |accounts| ==> accounts[i].username != username) ==> name == username
  {
    var k := FirstIndex(accounts, (a: Account) => a.username == username);
    if k >= 0 && Present(accounts[k].displayName) then accounts[k].displayName.value else username
  }

  /** A race after `pilots = participants?.length || 0`. */
  function WithPilots(r: Race): (c: Race)
    ensures c.pilots == |ParticipantsOf(c)|
    ensures c.(pilots := r.pilots) == r
  {
    r.(pilots := |ParticipantsOf(r)|)
  }

  /** The fields a request body sets on a race; `None` keeps the stored one. */
  datatype RaceUpdate = RaceUpdate(
    id: Option<JsScalar>,
    participants: Option<Option<seq<Participant>>>,
    pilots: Option<int>,
    championship: Option<Option<string>>,
    serverIp: Option<Option<string>>,
    serverPort: Option<JsScalar>,
    udpListenAddress: Option<Option<string>>,
    udpSendAddress: Option<Option<string>>)

  function Pick<T>(given: Option<T>, kept: T): T
  {
    if given.Some? then given.value else kept
  }

  /** `Object.assign({}, race, body)`. */
  function Merge(r: Race, b: RaceUpdate): Race
  {
    Race(
      Pick(b.id, r.id),
      Pick(b.participants, r.participants),
      Pick(b.pilots, r.pilots),
      Pick(b.championship, r.championship),
      U.RaceEndpoint(
        Pick(b.serverIp, r.endpoint.serverIp),
        Pick(b.serverPort, r.endpoint.serverPort),
        Pick(b.udpListenAddress, r.endpoint.udpListenAddress),
        Pick(b.udpSendAddress, r.endpoint.udpSendAddress)))
  }

  /** Sending the same update twice has the effect of sending it once. */
  lemma MergeIdempotent(r: Race, b: RaceUpdate)
    ensures Merge(Merge(r, b), b) == Merge(r, b)
  {
  }

  // ---------------------------------------------------------------------------
  // Reconfiguring the telemetry listener

  /** What the configure route passes to `configureServer`, which takes one
      race argument: the `serverIp` value alone (the port arguments are extra
      and ignored). */
  function ConfigureRouteArgument(serverIp: JsScalar): U.RaceArg
  {
    U.Primitive(serverIp)
  }

  /** The race-shaped argument the configure route evidently means to pass:
      the requested server address and port. */
  function IntendedConfigureArgument(serverIp: JsScalar, serverPort: JsScalar): U.RaceArg
  {
    U.Record(U.RaceEndpoint(if serverIp.Str? then Some(serverIp.s) else None, serverPort, None, None))
  }

  /** Whatever string or number the request gives as `serverIp`, the
      configure route stores the defaults. */
  lemma ConfigureRouteStoresDefaults(serverIp: JsScalar)
    ensures U.ConfigFor(ConfigureRouteArgument(serverIp)) == U.DefaultConfig
  {
    U.ConfigForWithoutRecord(ConfigureRouteArgument(serverIp));
  }

  /** Asking for server 10.0.0.5:9000 leaves the stored address at 127.0.0.1. */
  lemma ConfigureRouteIgnoresAddress()
    ensures U.ConfigFor(ConfigureRouteArgument(Str("10.0.0.5"))).serverIp != "10.0.0.5"
  {
    ConfigureRouteStoresDefaults(Str("10.0.0.5"));
  }

  /** The intended argument stores the requested address and port. */
  lemma IntendedConfigureKeepsRequest(ip: string, port: JsScalar)
    requires ip != ""
    ensures var c := U.ConfigFor(IntendedConfigureArgument(Str(ip), port));
      c.serverIp == ip &&
      (Truthy(port) ==> c.serverPort == ParseIntScalar(port)) &&
      c.udpPort == U.DefaultUdpPort
  {
  }

  // ---------------------------------------------------------------------------
  // The server

  /** The port extraction the configure-for-race route writes out again for
      itself: it always agrees with the port the service stores, and it leaves
      9600 only for an address with exactly one ':'. */
  method RoutePort(sendAddress: Option<string>) returns (udpPort: int)
    ensures udpPort == U.PortFromSendAddress(sendAddress)
    ensures udpPort != U.DefaultUdpPort ==> Present(sendAddress) && Count(sendAddress.value, ':') == 1
  {
    udpPort := 9600;
    if Present(sendAddress) {
      var parts := Split(sendAddress.value, ':');
      if |parts| == 2 {
        var parsed := ParseInt(parts[1]);
        udpPort := if parsed.Some? && parsed.value != 0 then parsed.value else 9600;
      }
    }
    U.PortFromSendAddressShape(sendAddress);
  }

  /** The league server: the JSON files as sequences, the ADMIN_USERS setting
      and the telemetry service it reconfigures. */
  class LeagueServer {
    var races: seq<Race>
    var standings: seq<Standing>
    var news: seq<NewsItem>
    var achievements: seq<Achievement>
    var accounts: seq<Account>
    const adminUsers: string
    const service: U.AssettoCorsaUdpService

    constructor (adminUsers: string, service: U.AssettoCorsaUdpService, races: seq<Race>,
                 standings: seq<Standing>, news: seq<NewsItem>, achievements: seq<Achievement>,
                 accounts: seq<Account>)
      ensures this.adminUsers == adminUsers && this.service == service
      ensures this.races == races && this.standings == standings && this.news == news
      ensures this.achievements == achievements && this.accounts == accounts
    {
      this.adminUsers := adminUsers;
      this.service := service;
      this.races := races;
      this.standings := standings;
      this.news := news;
      this.achievements := achievements;
      this.accounts := accounts;
    }

    /** POST /api/races/:id/register; `added` tells the two 200 answers apart. */
    method Register(visitor: Visitor, idParam: string, now: string) returns (status: int, added: bool)
      modifies this`races, this`standings
      ensures visitor.Anonymous? ==> status == 401 && !added && races == old(races) && standings == old(standings)
      ensures visitor.SignedIn? ==>
        var u := visitor.username;
        var k := RaceIndex(old(races), NumberValue(Str(idParam)));
        if k < 0 then status == 404 && !added && races == old(races) && standings == old(standings)
        else if u in Usernames(ParticipantsOf(old(races)[k])) then
          status == 200 && !added && races == old(races) && standings == old(standings)
        else
          status == 200 && added &&
          races == old(races)[k := WithParticipant(old(races)[k], Participant(u, now))] &&
          standings == JoinChampionship(old(standings), old(races)[k].championship, u)
      ensures |races| == |old(races)|
      ensures forall j :: 0 <= j < |races| && Distinct(Usernames(ParticipantsOf(old(races)[j]))) ==>
        Distinct(Usernames(ParticipantsOf(races[j])))
    {
      var gate := RequireAuth(visitor);
      if gate.Refuse? {
        return gate.status, false;
      }
      var u := visitor.username;
      var k := RaceIndex(races, NumberValue(Str(idParam)));
      if k < 0 {
        return 404, false;
      }
      var race := races[k];
      var participants := ParticipantsOf(race);
      if UserIndex(participants, u) >= 0 {
        return 200, false;
      }
      RegisterAddsOnce(race, Participant(u, now));
      races := races[k := race.(participants := Some(participants + [Participant(u, now)]))];
      if Present(race.championship) {
        var j := StandingIndex(standings, race.championship.value);
        if j >= 0 {
          var standing := standings[j];
          var pilots := PilotsOf(standing);
          if u !in pilots {
            var drivers := DriversOf(standing);
            if u !in DriverNames(drivers) {
              drivers := drivers + [NewDriver(u)];
            }
            standings := standings[j := standing.(registeredPilots := Some(pilots + [u]), drivers := Some(drivers))];
          }
        }
      }
      return 200, true;
    }

    /** POST /api/races/:id/unregister. */
    method Unregister(visitor: Visitor, idParam: string) returns (status: int)
      modifies this`races
      ensures visitor.Anonymous? ==> status == 401 && races == old(races)
      ensures visitor.SignedIn? ==>
        var u := visitor.username;
        var k := RaceIndex(old(races), NumberValue(Str(idParam)));
        if k < 0 then status == 404 && races == old(races)
        else if u !in Usernames(ParticipantsOf(old(races)[k])) then status == 400 && races == old(races)
        else
          status == 200 &&
          races == old(races)[k := WithoutParticipantAt(old(races)[k], UserIndex(ParticipantsOf(old(races)[k]), u))] &&
          multiset(Usernames(ParticipantsOf(races[k]))) == multiset(Usernames(ParticipantsOf(old(races)[k]))) - multiset{u}
    {
      var gate := RequireAuth(visitor);
      if gate.Refuse? {
        return gate.status;
      }
      var u := visitor.username;
      var k := RaceIndex(races, NumberValue(Str(idParam)));
      if k < 0 {
        return 404;
      }
      var race := races[k];
      var participants := ParticipantsOf(race);
      var idx := UserIndex(participants, u);
      if idx == -1 {
        return 400;
      }
      UnregisterRemovesFirst(participants, u);
      races := races[k := race.(participants := Some(participants[..idx] + participants[idx + 1..]))];
      return 200;
    }

    /** POST /api/news: the item gets the next id and the author's display
        name, goes to the front, and is answered with success. */
    method PostNews(visitor: Visitor, item: NewsItem) returns (status: int, created: Option<NewsItem>)
      modifies this`news
      ensures RequireAdmin(adminUsers, visitor).Refuse? ==>
        status == RequireAdmin(adminUsers, visitor).status && created.None? && news == old(news)
      ensures RequireAdmin(adminUsers, visitor).Proceed? ==>
        status == 200 && created.Some? &&
        created.value == item.(id := Num(NextId(Ids(old(news), NewsId))),
                               author := Some(AuthorName(accounts, visitor.username))) &&
        news == [created.value] + old(news)
      ensures created.Some? && NumericIds(Ids(old(news), NewsId)) ==>
        forall i :: 0 <= i < |old(news)| ==> old(news)[i].id != created.value.id
      ensures created.Some? && !NumericIds(Ids(old(news), NewsId)) ==> created.value.id == Num(1)
    {
      var gate := RequireAdmin(adminUsers, visitor);
      if gate.Refuse? {
        return gate.status, None;
      }
      if NumericIds(Ids(news, NewsId)) {
        NextIdIsFresh(news, NewsId);
      }
      var c := item.(id := Num(NextId(Ids(news, NewsId))), author := Some(AuthorName(accounts, visitor.username)));
      news := [c] + news;
      return 200, Some(c);
    }

    /** POST /api/races: the race gets the next id, a participant list and the
        matching pilots count, and goes to the front. */
    method PostRace(visitor: Visitor, item: Race) returns (status: int, created: Option<Race>)
      modifies this`races
      ensures RequireAdmin(adminUsers, visitor).Refuse? ==>
        status == RequireAdmin(adminUsers, visitor).status && created.None? && races == old(races)
      ensures RequireAdmin(adminUsers, visitor).Proceed? ==>
        status == 200 && created.Some? &&
        created.value == item.(id := Num(NextId(Ids(old(races), RaceId))),
                               participants := Some(ParticipantsOf(item)),
                               pilots := |ParticipantsOf(item)|) &&
        races == [created.value] + old(races)
      ensures created.Some? ==> created.value.pilots == |ParticipantsOf(created.value)|
      ensures created.Some? && NumericIds(Ids(old(races), RaceId)) ==>
        forall i :: 0 <= i < |old(races)| ==> old(races)[i].id != created.value.id
      ensures created.Some? && !NumericIds(Ids(old(races), RaceId)) ==> created.value.id == Num(1)
    {
      var gate := RequireAdmin(adminUsers, visitor);
      if gate.Refuse? {
        return gate.status, None;
      }
      var participants := ParticipantsOf(item);
      if NumericIds(Ids(races, RaceId)) {
        NextIdIsFresh(races, RaceId);
      }
      var c := item.(id := Num(NextId(Ids(races, RaceId))), participants := Some(participants), pilots := |participants|);
      races := [c] + races;
      return 200, Some(c);
    }

    /** POST /api/achievements: the next id, at the front. */
    method PostAchievement(visitor: Visitor, item: Achievement) returns (status: int, created: Option<Achievement>)
      modifies this`achievements
      ensures RequireAdmin(adminUsers, visitor).Refuse? ==>
        status == RequireAdmin(adminUsers, visitor).status && created.None? && achievements == old(achievements)
      ensures RequireAdmin(adminUsers, visitor).Proceed? ==>
        status == 200 && created.Some? &&
        created.value == item.(id := Num(NextId(Ids(old(achievements), AchievementId)))) &&
        achievements == [created.value] + old(achievements)
      ensures created.Some? && NumericIds(Ids(old(achievements), AchievementId)) ==>
        forall i :: 0 <= i < |old(achievements)| ==> old(achievements)[i].id != created.value.id
      ensures created.Some? && !NumericIds(Ids(old(achievements), AchievementId)) ==> created.value.id == Num(1)
    {
      var gate := RequireAdmin(adminUsers, visitor);
      if gate.Refuse? {
        return gate.status, None;
      }
      if NumericIds(Ids(achievements, AchievementId)) {
        NextIdIsFresh(achievements, AchievementId);
      }
      var c := item.(id := Num(NextId(Ids(achievements, AchievementId))));
      achievements := [c] + achievements;
      return 200, Some(c);
    }

    /** GET /api/races: each race with its pilots count recomputed from its
        participants; the stored list is left as it is. */
    method GetRaces() returns (view: seq<Race>)
      ensures |view| == |races|
      ensures forall i :: 0 <= i < |races| ==> view[i] == WithPilots(races[i])
      ensures forall i :: 0 <= i < |view| ==> view[i].pilots == |ParticipantsOf(view[i])|
    {
      view := races;
      for i := 0 to |view|
        invariant |view| == |races|
        invariant forall j :: 0 <= j < i ==> view[j] == WithPilots(races[j])
        invariant forall j :: i <= j < |view| ==> view[j] == races[j]
      {
        view := view[i := WithPilots(view[i])];
      }
    }

    /** PUT /api/races/:id: the body's fields over the stored race, then the
        pilots count recomputed. */
    method PutRace(visitor: Visitor, idParam: string, body: RaceUpdate) returns (status: int)
      modifies this`races
      ensures RequireAdmin(adminUsers, visitor).Refuse? ==>
        status == RequireAdmin(adminUsers, visitor).status && races == old(races)
      ensures RequireAdmin(adminUsers, visitor).Proceed? ==>
        var k := RaceIndex(old(races), NumberValue(Str(idParam)));
        if k < 0 then status == 404 && races == old(races)
        else status == 200 && races == old(races)[k := WithPilots(Merge(old(races)[k], body))]
      ensures status == 200 ==>
        var k := RaceIndex(old(races), NumberValue(Str(idParam)));
        0 <= k < |races| && races[k].pilots == |ParticipantsOf(races[k])|
    {
      var gate := RequireAdmin(adminUsers, visitor);
      if gate.Refuse? {
        return gate.status;
      }
      var k := RaceIndex(races, NumberValue(Str(idParam)));
      if k == -1 {
        return 404;
      }
      var updated := Merge(races[k], body);
      updated := updated.(pilots := |ParticipantsOf(updated)|);
      races := races[k := updated];
      return 200;
    }

    /** POST /api/assetto-corsa/configure: 400 unless all three values are
        truthy, then stop, configure and start in that order. */
    method ConfigureRoute(visitor: Visitor, serverIp: JsScalar, serverPort: JsScalar, udpPort: JsScalar)
      returns (status: int)
      modifies service`udpSocket, service`serverConfig, service`history
      ensures RequireAdmin(adminUsers, visitor).Refuse? ==>
        status == RequireAdmin(adminUsers, visitor).status && unchanged(service)
      ensures RequireAdmin(adminUsers, visitor).Proceed? && !(Truthy(serverIp) && Truthy(serverPort) && Truthy(udpPort)) ==>
        status == 400 && unchanged(service)
      ensures RequireAdmin(adminUsers, visitor).Proceed? && Truthy(serverIp) && Truthy(serverPort) && Truthy(udpPort) ==>
        status == 200 &&
        service.history == old(service.history) + [U.Stop, U.Configure(U.DefaultConfig), U.Start(udpPort)] &&
        service.serverConfig == U.DefaultConfig && service.udpSocket == U.Listening(udpPort)
    {
      var gate := RequireAdmin(adminUsers, visitor);
      if gate.Refuse? {
        return gate.status;
      }
      if !Truthy(serverIp) || !Truthy(serverPort) || !Truthy(udpPort) {
        return 400;
      }
      service.StopUdpListener();
      var _ := service.ConfigureServer(ConfigureRouteArgument(serverIp));
      ConfigureRouteStoresDefaults(serverIp);
      service.StartUdpListener(udpPort);
      return 200;
    }

    /** The configure route as evidently intended: the requested server
        address and port are stored. */
    method ConfigureRouteIntended(visitor: Visitor, serverIp: JsScalar, serverPort: JsScalar, udpPort: JsScalar)
      returns (status: int)
      modifies service`udpSocket, service`serverConfig, service`history
      ensures RequireAdmin(adminUsers, visitor).Refuse? ==>
        status == RequireAdmin(adminUsers, visitor).status && unchanged(service)
      ensures RequireAdmin(adminUsers, visitor).Proceed? && !(Truthy(serverIp) && Truthy(serverPort) && Truthy(udpPort)) ==>
        status == 400 && unchanged(service)
      ensures RequireAdmin(adminUsers, visitor).Proceed? && Truthy(serverIp) && Truthy(serverPort) && Truthy(udpPort) ==>
        var config := U.ConfigFor(IntendedConfigureArgument(serverIp, serverPort));
        status == 200 &&
        service.history == old(service.history) + [U.Stop, U.Configure(config), U.Start(udpPort)] &&
        service.serverConfig == config && service.udpSocket == U.Listening(udpPort) &&
        (serverIp.Str? ==> config.serverIp == serverIp.s) &&
        config.serverPort == ParseIntScalar(serverPort)
    {
      var gate := RequireAdmin(adminUsers, visitor);
      if gate.Refuse? {
        return gate.status;
      }
      if !Truthy(serverIp) || !Truthy(serverPort) || !Truthy(udpPort) {
        return 400;
      }
      service.StopUdpListener();
      var _ := service.ConfigureServer(IntendedConfigureArgument(serverIp, serverPort));
      service.StartUdpListener(udpPort);
      return 200;
    }

    /** POST /api/assetto-corsa/configure-for-race: 400 without a race id, 404
        for an unknown race; otherwise stop, configure from the race record, and
        start on the port taken from its send address, which is the port the
        stored configuration holds. */
    method ConfigureForRace(visitor: Visitor, raceId: JsScalar) returns (status: int, config: Option<U.ServerConfig>)
      modifies service`udpSocket, service`serverConfig, service`history
      ensures RequireAdmin(adminUsers, visitor).Refuse? ==>
        status == RequireAdmin(adminUsers, visitor).status && config.None? && unchanged(service)
      ensures RequireAdmin(adminUsers, visitor).Proceed? && !Truthy(raceId) ==>
        status == 400 && config.None? && unchanged(service)
      ensures RequireAdmin(adminUsers, visitor).Proceed? && Truthy(raceId) ==>
        var k := RaceIndex(races, NumberValue(raceId));
        if k < 0 then status == 404 && config.None? && unchanged(service)
        else
          var c := U.ConfigFor(U.Record(races[k].endpoint));
          status == 200 && config == Some(c) && service.serverConfig == c &&
          service.history == old(service.history) + [U.Stop, U.Configure(c), U.Start(Num(c.udpPort))] &&
          service.udpSocket == U.Listening(Num(c.udpPort))
    {
      var gate := RequireAdmin(adminUsers, visitor);
      if gate.Refuse? {
        return gate.status, None;
      }
      if !Truthy(raceId) {
        return 400, None;
      }
      var k := RaceIndex(races, NumberValue(raceId));
      if k < 0 {
        return 404, None;
      }
      var race := races[k];
      service.StopUdpListener();
      var c := service.ConfigureServer(U.Record(race.endpoint));
      var udpPort := RoutePort(race.endpoint.udpSendAddress);
      service.StartUdpListener(Num(udpPort));
      return 200, Some(c);
    }
  }
}
