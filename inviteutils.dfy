/**
 * The invite-tracking cog. Per server it keeps the welcome settings and, for
 * every live invite URL, the use count last seen and an optional role bound to
 * the invite. Reconciling against the live invite list lets it guess, when a
 * member joins, which invite was used.
 */
module InviteTracker {
  import opened Wrappers
  import opened Text

  type ServerId = string
  type ChannelId = string
  type RoleId = string

  const HttpsPrefix: string := "https://discord.gg/"
  const HttpPrefix: string := "http://discord.gg/"

  /** The stored entry of one invite: `{"uses": n}` or `{"uses": n, "role": id}`. */
  datatype InviteRecord = InviteRecord(uses: int, role: Option<RoleId>)

  /** Invite URL -> record. */
  type Invites = map<string, InviteRecord>

  /** The settings of one server. */
  datatype ServerSettings = ServerSettings(
    channel: Option<ChannelId>,
    embed: bool,
    joinMessage: string,
    leaveMessage: string,
    join: bool,
    leave: bool,
    botRole: Option<RoleId>,
    botRoleToggle: bool,
    invites: Invites)

  /** What `server_init` installs. */
  const Defaults := ServerSettings(None, false, "{0.mention} has joined!", "{0.mention} has left!",
                                   false, false, None, false, map[])

  type Settings = map<ServerId, ServerSettings>

  /** An invite as the platform lists it: its code and how often it was used. */
  datatype LiveInvite = LiveInvite(code: string, uses: int)

  /** The invite's URL as the platform renders it. */
  function Url(inv: LiveInvite): (u: string)
    ensures HasPrefix(u, HttpPrefix)
  {
    HttpPrefix + inv.code
  }

  /** A role as found by name: its id and its rank in the role hierarchy. */
  datatype RoleRef = RoleRef(id: RoleId, rank: int)

  /** The role named in a welcome message. */
  datatype RoleLabel = BoundRole(name: string) | DeletedRole | NoRole

  datatype Reply =
    | NoSuchRole
    | RoleTooHigh
    | NoInvites
    | RoleBound(role: RoleId, code: string)
    | NoSuchInvite
    | NoRoleBound
    | RoleUnbound(roleName: string)
    | NothingToToggle
    | NeedEmbedLinks
    | EmbedSet(on: bool)
    | JoinSet(on: bool)
    | LeaveSet(on: bool)
    | NeverEnabled
    | SettingsDeleted
    | InviteList(text: string)
    | NoBoundInvites

  datatype Effect =
    | Say(reply: Reply)
    | Save
    | GiveRole(role: RoleId)
    | Announce(channel: ChannelId, invite: string, shownRole: RoleLabel, embedded: bool)

  // ---------------------------------------------------------------------------
  // Invite URLs and codes

  /** The fields of an invite URL under `split('/')`: scheme, "", "discord.gg", then the code's fields. */
  lemma UrlFields(prefix: string, rest: string)
    requires prefix == HttpsPrefix || prefix == HttpPrefix
    ensures |Split(prefix + rest, '/')| >= 4
    ensures Split(prefix + rest, '/')[3] == Split(rest, '/')[0]
  {
    var scheme: string := if prefix == HttpsPrefix then "https:" else "http:";
    var host: string := "discord.gg";
    assert '/' !in scheme && '/' !in host;
    PrefixShape(prefix, scheme, host, rest);
    SlashFields(scheme, host, rest);
  }

  /** `scheme//host/rest` splits into scheme, an empty field, host, then the fields of rest. */
  lemma SlashFields(scheme: string, host: string, rest: string)
    requires '/' !in scheme && '/' !in host
    ensures Split(scheme + ['/'] + ([] + ['/'] + (host + ['/'] + rest)), '/') == [scheme, [], host] + Split(rest, '/')
  {
    var fields := Split(rest, '/');
    var t1 := host + ['/'] + rest;
    var t2 := [] + ['/'] + t1;
    assert Split(t1, '/') == [host] + fields by {
      SplitAfterField(host, '/', rest);
    }
    assert Split(t2, '/') == [[]] + ([host] + fields) by {
      SplitAfterField([], '/', t1);
    }
    assert Split(scheme + ['/'] + t2, '/') == [scheme] + ([[]] + ([host] + fields)) by {
      SplitAfterField(scheme, '/', t2);
    }
  }

  lemma PrefixShape(prefix: string, scheme: string, host: string, rest: string)
    requires prefix == HttpsPrefix || prefix == HttpPrefix
    requires scheme == if prefix == HttpsPrefix then "https:" else "http:"
    requires host == "discord.gg"
    ensures prefix + rest == scheme + ['/'] + ([] + ['/'] + (host + ['/'] + rest))
  {
    assert prefix == scheme + "//" + host + "/" by {
      if prefix == HttpsPrefix {
        HttpsShape();
      } else {
        HttpShape();
      }
    }
  }

  lemma HttpsShape()
    ensures HttpsPrefix == "https:" + "//" + "discord.gg" + "/"
  {
  }

  lemma HttpShape()
    ensures HttpPrefix == "http:" + "//" + "discord.gg" + "/"
  {
  }

  /** No argument starts with both the https and the http form. */
  lemma PrefixesExclusive(s: string)
    ensures HasPrefix(s, HttpsPrefix) ==> !HasPrefix(s, HttpPrefix)
  {
    if HasPrefix(s, HttpsPrefix) {
      assert s[4] == HttpsPrefix[4] == 's';
    }
  }

  /** `url.split('/')[3]` of a stored or live invite URL. */
  function UrlCode(url: string): (code: string)
    requires HasPrefix(url, HttpPrefix)
    ensures code == Split(url[|HttpPrefix|..], '/')[0]
  {
    assert url == HttpPrefix + url[|HttpPrefix|..];
    UrlFields(HttpPrefix, url[|HttpPrefix|..]);
    Split(url, '/')[3]
  }

  /** `addrole`: a URL argument is reduced to its code (field 3); anything else is the code already. */
  function InviteCode(arg: string): (code: string)
    ensures HasPrefix(arg, HttpsPrefix) ==> code == Split(arg[|HttpsPrefix|..], '/')[0]
    ensures HasPrefix(arg, HttpPrefix) ==> code == Split(arg[|HttpPrefix|..], '/')[0]
    ensures !HasPrefix(arg, HttpsPrefix) && !HasPrefix(arg, HttpPrefix) ==> code == arg
  {
    if HasPrefix(arg, HttpsPrefix) || HasPrefix(arg, HttpPrefix) then
      var prefix := if HasPrefix(arg, HttpsPrefix) then HttpsPrefix else HttpPrefix;
      PrefixesExclusive(arg);
      assert arg == prefix + arg[|prefix|..];
      UrlFields(prefix, arg[|prefix|..]);
      Split(arg, '/')[3]
    else arg
  }

  /** `removerole`: every form of the argument becomes the stored key `http://discord.gg/<code>`. */
  function InviteKey(arg: string): (url: string)
    ensures url == HttpPrefix + InviteCode(arg)
  {
    if HasPrefix(arg, HttpsPrefix) || HasPrefix(arg, HttpPrefix) then
      var prefix := if HasPrefix(arg, HttpsPrefix) then HttpsPrefix else HttpPrefix;
      assert arg == prefix + arg[|prefix|..];
      UrlFields(prefix, arg[|prefix|..]);
      HttpPrefix + Split(arg, '/')[3]
    else HttpPrefix + arg
  }

  /** Both URL forms contain '/', so an argument starting with one contains it too. */
  lemma PrefixedHasSlash(s: string)
    ensures HasPrefix(s, HttpsPrefix) || HasPrefix(s, HttpPrefix) ==> '/' in s
  {
    if HasPrefix(s, HttpsPrefix) || HasPrefix(s, HttpPrefix) {
      assert s[6] == '/';
    }
  }

  lemma CodeOfUrl(prefix: string, code: string)
    requires prefix == HttpsPrefix || prefix == HttpPrefix
    requires '/' !in code
    ensures InviteCode(prefix + code) == code
    ensures InviteKey(prefix + code) == HttpPrefix + code
  {
    SplitNoSeparator(code, '/');
    assert (prefix + code)[|prefix|..] == code;
    assert HasPrefix(prefix + code, prefix);
  }

  /** For a code without '/', the https URL, the http URL and the bare code all name the same invite. */
  lemma NormalisationAgrees(code: string)
    requires '/' !in code
    ensures InviteCode(HttpsPrefix + code) == InviteCode(HttpPrefix + code) == InviteCode(code) == code
    ensures InviteKey(HttpsPrefix + code) == InviteKey(HttpPrefix + code) == InviteKey(code) == HttpPrefix + code
    ensures UrlCode(Url(LiveInvite(code, 0))) == code
  {
    PrefixedHasSlash(code);
    CodeOfUrl(HttpsPrefix, code);
    CodeOfUrl(HttpPrefix, code);
  }

  // ---------------------------------------------------------------------------
  // Reconciliation with the live invite list

  function LiveUrls(live: seq<LiveInvite>): set<string> {
    set i | 0 <= i < |live| :: Url(live[i])
  }

  lemma LiveUrlsAreUrls(live: seq<LiveInvite>)
    ensures forall u :: u in LiveUrls(live) ==> HasPrefix(u, HttpPrefix)
  {
    forall u | u in LiveUrls(live) ensures HasPrefix(u, HttpPrefix) {
      var i :| 0 <= i < |live| && Url(live[i]) == u;
    }
  }

  /** No later invite of the list has the same URL as invite i. */
  predicate LastWithUrl(live: seq<LiveInvite>, i: int)
    requires 0 <= i < |live|
  {
    forall j :: i < j < |live| ==> Url(live[j]) != Url(live[i])
  }

  /** The first loop of `inv_update`: insert unseen invites, refresh the uses of known ones. */
  function Sync(stored: Invites, live: seq<LiveInvite>): Invites
    decreases |live|
  {
    if live == [] then stored
    else
      var m := Sync(stored, live[..|live| - 1]);
      var inv := live[|live| - 1];
      var url := Url(inv);
      m[url := if url in m then m[url].(uses := inv.uses) else InviteRecord(inv.uses, None)]
  }

  lemma LiveUrlsSnoc(live: seq<LiveInvite>, n: nat)
    requires n < |live|
    ensures LiveUrls(live[..n + 1]) == LiveUrls(live[..n]) + {Url(live[n])}
  {
    var next, front := live[..n + 1], live[..n];
    forall u | u in LiveUrls(next) ensures u in LiveUrls(front) + {Url(live[n])} {
      var i :| 0 <= i < |next| && Url(next[i]) == u;
      if i < n { assert Url(front[i]) == u; }
    }
    forall u | u in LiveUrls(front) ensures u in LiveUrls(next) {
      var i :| 0 <= i < |front| && Url(front[i]) == u;
      assert Url(next[i]) == u;
    }
    assert Url(next[n]) == Url(live[n]);
  }

  /** One step of the first loop of `inv_update`. */
  lemma SyncStep(stored: Invites, live: seq<LiveInvite>, i: nat)
    requires i < |live|
    ensures var m := Sync(stored, live[..i]);
            var url := Url(live[i]);
            Sync(stored, live[..i + 1]) == m[url := if url in m then m[url].(uses := live[i].uses) else InviteRecord(live[i].uses, None)]
  {
    assert live[..i + 1][..i] == live[..i];
  }

  lemma {:induction false} SyncKeys(stored: Invites, live: seq<LiveInvite>)
    ensures Sync(stored, live).Keys == stored.Keys + LiveUrls(live)
    decreases |live|
  {
    if live != [] {
      var n := |live| - 1;
      SyncKeys(stored, live[..n]);
      LiveUrlsSnoc(live, n);
      assert live[..n + 1] == live;
    }
  }

  lemma {:induction false} SyncKeepsOthers(stored: Invites, live: seq<LiveInvite>)
    ensures forall u :: u in stored && u !in LiveUrls(live) ==> u in Sync(stored, live) && Sync(stored, live)[u] == stored[u]
    decreases |live|
  {
    if live != [] {
      var n := |live| - 1;
      SyncKeys(stored, live);
      SyncKeepsOthers(stored, live[..n]);
      LiveUrlsSnoc(live, n);
      assert live[..n + 1] == live;
    }
  }

  lemma {:induction false} SyncRoles(stored: Invites, live: seq<LiveInvite>)
    ensures forall u :: u in Sync(stored, live) ==>
              Sync(stored, live)[u].role == if u in stored then stored[u].role else None
    decreases |live|
  {
    if live != [] {
      SyncRoles(stored, live[..|live| - 1]);
      SyncKeys(stored, live[..|live| - 1]);
    }
  }

  lemma {:induction false} SyncUses(stored: Invites, live: seq<LiveInvite>)
    ensures forall i :: 0 <= i < |live| && LastWithUrl(live, i) ==>
              Url(live[i]) in Sync(stored, live) && Sync(stored, live)[Url(live[i])].uses == live[i].uses
    decreases |live|
  {
    if live != [] {
      var n := |live| - 1;
      var front := live[..n];
      SyncUses(stored, front);
      forall i | 0 <= i < |live| && LastWithUrl(live, i)
        ensures Url(live[i]) in Sync(stored, live) && Sync(stored, live)[Url(live[i])].uses == live[i].uses
      {
        if i < n {
          assert Url(live[n]) != Url(live[i]);
          assert front[i] == live[i];
          assert LastWithUrl(front, i);
        }
      }
    }
  }

  /** What `inv_update` leaves: exactly the live invites, with live uses and their old roles. */
  function Reconcile(stored: Invites, live: seq<LiveInvite>): (r: Invites)
    ensures r.Keys == LiveUrls(live)
    ensures forall i :: 0 <= i < |live| && LastWithUrl(live, i) ==> r[Url(live[i])].uses == live[i].uses
    ensures forall u :: u in r ==> r[u].role == if u in stored then stored[u].role else None
  {
    SyncKeys(stored, live);
    SyncRoles(stored, live);
    SyncUses(stored, live);
    var synced := Sync(stored, live);
    map u | u in synced && u in LiveUrls(live) :: synced[u]
  }

  /** Every live URL has a last occurrence in the list. */
  lemma {:induction false} LastOccurrence(live: seq<LiveInvite>, u: string)
    requires u in LiveUrls(live)
    ensures exists i :: 0 <= i < |live| && Url(live[i]) == u && LastWithUrl(live, i)
    decreases |live|
  {
    var n := |live| - 1;
    if Url(live[n]) == u {
      assert LastWithUrl(live, n);
    } else {
      var j :| 0 <= j < |live| && Url(live[j]) == u;
      assert Url(live[..n][j]) == u;
      LastOccurrence(live[..n], u);
      var i :| 0 <= i < n && Url(live[..n][i]) == u && LastWithUrl(live[..n], i);
      assert live[..n][i] == live[i];
      assert LastWithUrl(live, i);
    }
  }

  /** Reconciling again against the same live list changes nothing. */
  lemma ReconcileIdempotent(stored: Invites, live: seq<LiveInvite>)
    ensures Reconcile(Reconcile(stored, live), live) == Reconcile(stored, live)
  {
    var r1 := Reconcile(stored, live);
    var r2 := Reconcile(r1, live);
    forall u | u in r1 ensures r2[u] == r1[u] {
      LastOccurrence(live, u);
      var i :| 0 <= i < |live| && Url(live[i]) == u && LastWithUrl(live, i);
      assert r2[u].uses == live[i].uses == r1[u].uses;
    }
  }

  /** The settings with one server's invite table replaced. */
  function WithInvites(settings: Settings, server: ServerId, invites: Invites): Settings
    requires server in settings
  {
    settings[server := settings[server].(invites := invites)]
  }

  lemma WithInvitesTwice(settings: Settings, server: ServerId, a: Invites, b: Invites)
    requires server in settings
    ensures WithInvites(WithInvites(settings, server, a), server, b) == WithInvites(settings, server, b)
  {
    assert WithInvites(settings, server, a)[server].(invites := b) == settings[server].(invites := b);
  }

  /** The settings after `inv_update(server)` given the result of the invite fetch (None: it failed). */
  function UpdateSpec(settings: Settings, server: ServerId, fetched: Option<seq<LiveInvite>>): Settings {
    if server !in settings || fetched.None? then settings
    else WithInvites(settings, server, Reconcile(settings[server].invites, fetched.value))
  }

  /** `inv_update` twice with the same invite list is `inv_update` once. */
  lemma UpdateIdempotent(settings: Settings, server: ServerId, fetched: Option<seq<LiveInvite>>)
    ensures UpdateSpec(UpdateSpec(settings, server, fetched), server, fetched) == UpdateSpec(settings, server, fetched)
  {
    if server in settings && fetched.Some? {
      ReconcileIdempotent(settings[server].invites, fetched.value);
    }
  }

  // ---------------------------------------------------------------------------
  // Member join

  /** A live invite whose use count rose since the last reconciliation. */
  predicate Candidate(inv: LiveInvite, stored: Invites) {
    Url(inv) in stored && inv.uses > stored[Url(inv)].uses
  }

  function Label(rec: InviteRecord, roles: map<RoleId, string>): RoleLabel {
    if rec.role.None? then NoRole
    else if rec.role.value in roles then BoundRole(roles[rec.role.value])
    else DeletedRole
  }

  /** The calls made for one candidate invite of a server whose welcome channel is set. */
  function Attribution(inv: LiveInvite, s: ServerSettings, roles: map<RoleId, string>): seq<Effect>
    requires Candidate(inv, s.invites) && s.channel.Some?
  {
    var rec := s.invites[Url(inv)];
    (if rec.role.Some? && rec.role.value in roles then [GiveRole(rec.role.value)] else [])
    + (if s.join then [Announce(s.channel.value, Url(inv), Label(rec, roles), s.embed)] else [])
  }

  /** The attribution loop of `on_member_join`: with join messages on it stops at the first candidate. */
  function JoinLoop(live: seq<LiveInvite>, s: ServerSettings, roles: map<RoleId, string>): seq<Effect>
    requires s.channel.Some?
  {
    if live == [] then []
    else if Candidate(live[0], s.invites) then
      Attribution(live[0], s, roles) + (if s.join then [] else JoinLoop(live[1..], s, roles))
    else JoinLoop(live[1..], s, roles)
  }

  /** The first live invite, in list order, whose use count rose. */
  function FirstCandidate(live: seq<LiveInvite>, stored: Invites): (r: Option<LiveInvite>)
    ensures r.Some? ==> Candidate(r.value, stored)
    ensures r.Some? ==>
              exists i :: 0 <= i < |live| && live[i] == r.value && forall j :: 0 <= j < i ==> !Candidate(live[j], stored)
    ensures r.None? ==> forall inv :: inv in live ==> !Candidate(inv, stored)
  {
    if live == [] then None
    else if Candidate(live[0], stored) then Some(live[0])
    else
      var r := FirstCandidate(live[1..], stored);
      assert r.Some? ==> exists i :: 0 <= i < |live| && live[i] == r.value && forall j :: 0 <= j < i ==> !Candidate(live[j], stored) by {
        if r.Some? {
          var k :| 0 <= k < |live[1..]| && live[1..][k] == r.value && forall j :: 0 <= j < k ==> !Candidate(live[1..][j], stored);
          assert live[k + 1] == r.value;
          assert forall j :: 0 <= j < k + 1 ==> !Candidate(live[j], stored) by {
            forall j | 0 <= j < k + 1 ensures !Candidate(live[j], stored) {
              if j > 0 { assert live[j] == live[1..][j - 1]; }
            }
          }
        }
      }
      assert forall inv :: inv in live ==> inv == live[0] || inv in live[1..];
      r
  }

  /** With join messages on, exactly the first candidate in list order is attributed and announced. */
  lemma {:induction false} JoinOnUsesFirstCandidate(live: seq<LiveInvite>, s: ServerSettings, roles: map<RoleId, string>)
    requires s.channel.Some? && s.join
    ensures JoinLoop(live, s, roles) ==
              match FirstCandidate(live, s.invites)
              case None => []
              case Some(inv) => Attribution(inv, s, roles)
  {
    if live != [] && !Candidate(live[0], s.invites) {
      JoinOnUsesFirstCandidate(live[1..], s, roles);
    }
  }

  /** With join messages off nothing is announced, and every candidate's live bound role is given. */
  lemma {:induction false} JoinOffGivesEveryBoundRole(live: seq<LiveInvite>, s: ServerSettings, roles: map<RoleId, string>, r: RoleId)
    requires s.channel.Some? && !s.join
    ensures forall e :: e in JoinLoop(live, s, roles) ==> e.GiveRole?
    ensures GiveRole(r) in JoinLoop(live, s, roles) <==>
              r in roles && exists inv :: inv in live && Candidate(inv, s.invites) && s.invites[Url(inv)].role == Some(r)
  {
    if live != [] {
      JoinOffGivesEveryBoundRole(live[1..], s, roles, r);
      assert forall inv :: inv in live <==> inv == live[0] || inv in live[1..];
    }
  }

  /** The role given to a bot account on join, when that is switched on. */
  function BotRoleEffects(isBot: bool, s: ServerSettings, roles: map<RoleId, string>): seq<Effect> {
    if isBot && s.botRoleToggle && s.botRole.Some? && s.botRole.value in roles then [GiveRole(s.botRole.value)] else []
  }

  // ---------------------------------------------------------------------------
  // The `list` command

  function RoleName(roles: map<RoleId, string>, id: RoleId): string {
    if id in roles then roles[id] else "deleted-role"
  }

  function Spaces(n: nat): (s: string)
    ensures |s| == n && forall i :: 0 <= i < n ==> s[i] == ' '
  {
    if n == 0 then "" else Spaces(n - 1) + " "
  }

  /** The code followed by `max(8 - len(code), 0)` spaces. */
  function PadCode(code: string): (p: string)
    ensures |p| == if |code| < 8 then 8 else |code|
    ensures HasPrefix(p, code)
    ensures forall i :: |code| <= i < |p| ==> p[i] == ' '
  {
    code + Spaces(if 8 - |code| > 0 then 8 - |code| else 0)
  }

  /** One line of `list`: the padded code, " : ", the role's name and a newline. */
  function ListLine(code: string, roleName: string): (line: string)
    ensures HasPrefix(line, PadCode(code))
    ensures |line| == |PadCode(code)| + 3 + |roleName| + 1
    ensures line[|PadCode(code)|..|PadCode(code)| + 3] == " : "
    ensures line[|PadCode(code)| + 3..|line| - 1] == roleName
    ensures line[|line| - 1] == '\n'
  {
    PadCode(code) + " : " + roleName + "\n"
  }

  predicate StoredUrls(keys: seq<string>, invites: Invites) {
    forall k :: k in keys ==> k in invites && HasPrefix(k, HttpPrefix)
  }

  /** The line `list` prints for one stored invite ("" for an invite without a role). */
  function LineFor(k: string, invites: Invites, roles: map<RoleId, string>): string
    requires k in invites && HasPrefix(k, HttpPrefix)
  {
    if invites[k].role.Some? then ListLine(UrlCode(k), RoleName(roles, invites[k].role.value)) else ""
  }

  /** The body `list` accumulates over the stored invites in iteration order. */
  function ListBody(keys: seq<string>, invites: Invites, roles: map<RoleId, string>): string
    requires StoredUrls(keys, invites)
  {
    if keys == [] then ""
    else ListBody(keys[..|keys| - 1], invites, roles) + LineFor(keys[|keys| - 1], invites, roles)
  }

  lemma ListBodySnoc(keys: seq<string>, n: nat, invites: Invites, roles: map<RoleId, string>)
    requires StoredUrls(keys, invites) && n < |keys|
    ensures StoredUrls(keys[..n], invites) && StoredUrls(keys[..n + 1], invites)
    ensures ListBody(keys[..n + 1], invites, roles) == ListBody(keys[..n], invites, roles) + LineFor(keys[n], invites, roles)
  {
    assert keys[..n + 1][..n] == keys[..n];
  }

  /** `list` finds something to show exactly when some stored invite has a role. */
  lemma {:induction false} ListEmptyIff(keys: seq<string>, invites: Invites, roles: map<RoleId, string>)
    requires StoredUrls(keys, invites)
    ensures ListBody(keys, invites, roles) == "" <==> forall k :: k in keys ==> invites[k].role.None?
  {
    if keys != [] {
      var front, k := keys[..|keys| - 1], keys[|keys| - 1];
      ListEmptyIff(front, invites, roles);
      assert forall x :: x in keys <==> x in front || x == k;
      if invites[k].role.Some? {
        assert |LineFor(k, invites, roles)| > 0;
      }
    }
  }

  function ListMessage(body: string): string {
    "List of invites with roles attached to them:\n```\nInvite   : Role\n" + body + "```"
  }

  // ---------------------------------------------------------------------------
  // The cog

  /** Every stored invite key is an invite URL (they all come from the live list). */
  ghost predicate WellFormed(settings: Settings) {
    forall sv, k :: sv in settings && k in settings[sv].invites ==> HasPrefix(k, HttpPrefix)
  }

  lemma UpdateKeepsWellFormed(settings: Settings, server: ServerId, fetched: Option<seq<LiveInvite>>)
    requires WellFormed(settings)
    ensures WellFormed(UpdateSpec(settings, server, fetched))
  {
    if server in settings && fetched.Some? {
      LiveUrlsAreUrls(fetched.value);
    }
  }

  class InviteUtils {
    var settings: Settings

    /** The stored settings are well formed. */
    ghost predicate Valid()
      reads this
    {
      WellFormed(settings)
    }

    /** `__init__`: the settings come from the stored file, whose invite keys were written by `inv_update`. */
    constructor (stored: Settings)
      requires WellFormed(stored)
      ensures Valid() && settings == stored
    {
      settings := stored;
    }

    method ServerInit(server: ServerId)
      requires Valid()
      modifies this
      ensures Valid()
      ensures settings == old(settings)[server := Defaults]
      ensures var d := settings[server];
              && d.channel == None && !d.embed && !d.join && !d.leave
              && d.botRole == None && !d.botRoleToggle && d.invites == map[]
              && d.joinMessage == "{0.mention} has joined!" && d.leaveMessage == "{0.mention} has left!"
    {
      settings := settings[server := ServerSettings(None, false, "{0.mention} has joined!", "{0.mention} has left!",
                                                    false, false, None, false, map[])];
    }

    /** `inv_update`; `fetched` is the invite list, or None when fetching raised. */
    method InvUpdate(server: ServerId, fetched: Option<seq<LiveInvite>>) returns (effects: seq<Effect>)
      requires Valid()
      modifies this
      ensures Valid()
      ensures settings == UpdateSpec(old(settings), server, fetched)
      ensures effects == if server in old(settings) && fetched.Some? then [Save] else []
    {
      effects := [];
      if server !in settings {
        return;
      }
      if fetched.None? {
        return;
      }
      var invites := fetched.value;
      ghost var stored := settings[server].invites;
      var inviteUrls := SyncInvites(server, invites);
      ghost var synced := settings;
      PruneInvites(server, invites, inviteUrls);
      assert settings == WithInvites(synced, server, Reconcile(stored, invites));
      WithInvitesTwice(old(settings), server, Sync(stored, invites), Reconcile(stored, invites));
      UpdateKeepsWellFormed(old(settings), server, fetched);
      effects := [Save];
    }

    /** The first loop of `inv_update`; it returns the URLs of the live invites. */
    method SyncInvites(server: ServerId, invites: seq<LiveInvite>) returns (inviteUrls: seq<string>)
      requires server in settings
      modifies this
      ensures settings == WithInvites(old(settings), server, Sync(old(settings)[server].invites, invites))
      ensures forall u :: u in inviteUrls <==> u in LiveUrls(invites)
    {
      ghost var base := settings[server].invites;
      var stored := settings[server].invites;
      inviteUrls := [];
      var i := 0;
      while i < |invites|
        invariant 0 <= i <= |invites|
        invariant settings == old(settings)
        invariant stored == Sync(base, invites[..i])
        invariant forall u :: u in inviteUrls <==> u in LiveUrls(invites[..i])
      {
        var inv := invites[i];
        var url := Url(inv);
        SyncStep(base, invites, i);
        if url !in stored {
          stored := stored[url := InviteRecord(inv.uses, None)];
        } else {
          stored := stored[url := stored[url].(uses := inv.uses)];
        }
        inviteUrls := inviteUrls + [url];
        LiveUrlsSnoc(invites, i);
        i := i + 1;
      }
      assert invites[..i] == invites;
      settings := settings[server := settings[server].(invites := stored)];
    }

    /** The second loop of `inv_update`: drop every stored invite that is no longer live. */
    method PruneInvites(server: ServerId, live: seq<LiveInvite>, inviteUrls: seq<string>)
      requires server in settings
      requires forall u :: u in inviteUrls <==> u in LiveUrls(live)
      modifies this
      ensures settings ==
                WithInvites(old(settings), server,
                            map u | u in old(settings)[server].invites && u in LiveUrls(live) :: old(settings)[server].invites[u])
    {
      ghost var synced := settings[server].invites;
      var kept := settings[server].invites;
      var keys := kept.Keys;
      while keys != {}
        invariant settings == old(settings)
        invariant keys <= synced.Keys
        invariant forall u :: u in kept <==> u in synced && (u in keys || u in LiveUrls(live))
        invariant forall u :: u in kept ==> kept[u] == synced[u]
        decreases keys
      {
        var invUrl :| invUrl in keys;
        if invUrl !in inviteUrls {
          kept := kept - {invUrl};
        }
        keys := keys - {invUrl};
      }
      assert kept == map u | u in synced && u in LiveUrls(live) :: synced[u];
      settings := settings[server := settings[server].(invites := kept)];
    }

    /** `togglej` */
    method ToggleJoin(server: ServerId) returns (effects: seq<Effect>)
      requires Valid()
      modifies this
      ensures Valid()
      ensures server !in old(settings) ==> settings == old(settings) && effects == [Say(NothingToToggle)]
      ensures server in old(settings) ==>
                && settings == old(settings)[server := old(settings)[server].(join := !old(settings)[server].join)]
                && effects == [Say(JoinSet(!old(settings)[server].join)), Save]
    {
      if server !in settings {
        return [Say(NothingToToggle)];
      }
      if settings[server].join == false {
        settings := settings[server := settings[server].(join := true)];
        effects := [Say(JoinSet(true))];
      } else {
        settings := settings[server := settings[server].(join := false)];
        effects := [Say(JoinSet(false))];
      }
      effects := effects + [Save];
    }

    /** `togglel` */
    method ToggleLeave(server: ServerId) returns (effects: seq<Effect>)
      requires Valid()
      modifies this
      ensures Valid()
      ensures server !in old(settings) ==> settings == old(settings) && effects == [Say(NothingToToggle)]
      ensures server in old(settings) ==>
                && settings == old(settings)[server := old(settings)[server].(leave := !old(settings)[server].leave)]
                && effects == [Say(LeaveSet(!old(settings)[server].leave)), Save]
    {
      if server !in settings {
        return [Say(NothingToToggle)];
      }
      if settings[server].leave == false {
        settings := settings[server := settings[server].(leave := true)];
        effects := [Say(LeaveSet(true))];
      } else {
        settings := settings[server := settings[server].(leave := false)];
        effects := [Say(LeaveSet(false))];
      }
      effects := effects + [Save];
    }

    /**
     * `embed`. `visible` is the set of channels the bot can see, `canEmbed` its
     * embed_links permission there. On an unknown server the handler raises before
     * anything happens.
     */
    method ToggleEmbed(server: ServerId, visible: set<ChannelId>, canEmbed: bool) returns (effects: seq<Effect>)
      requires Valid()
      modifies this
      ensures Valid()
      ensures server !in old(settings) ==> settings == old(settings) && effects == []
      ensures server in old(settings) && (old(settings)[server].channel.None? || old(settings)[server].channel.value !in visible) ==>
                settings == old(settings) && effects == [Say(NothingToToggle)]
      ensures server in old(settings) && old(settings)[server].channel.Some? && old(settings)[server].channel.value in visible ==>
                if !canEmbed then settings == old(settings) && effects == [Say(NeedEmbedLinks)]
                else
                  && settings == old(settings)[server := old(settings)[server].(embed := !old(settings)[server].embed)]
                  && effects == [Say(EmbedSet(!old(settings)[server].embed)), Save]
    {
      if server !in settings {
        return [];
      }
      var channel := settings[server].channel;
      if channel.None? || channel.value !in visible {
        return [Say(NothingToToggle)];
      }
      if !canEmbed {
        return [Say(NeedEmbedLinks)];
      }
      if settings[server].embed == false {
        settings := settings[server := settings[server].(embed := true)];
        effects := [Say(EmbedSet(true))];
      } else {
        settings := settings[server := settings[server].(embed := false)];
        effects := [Say(EmbedSet(false))];
      }
      effects := effects + [Save];
    }

    /** `disable`; `confirm` is the answer to the confirmation dialogue. */
    method Disable(server: ServerId, confirm: bool) returns (effects: seq<Effect>)
      requires Valid()
      modifies this
      ensures Valid()
      ensures server !in old(settings) ==> settings == old(settings) && effects == [Say(NeverEnabled)]
      ensures server in old(settings) && !confirm ==> settings == old(settings) && effects == []
      ensures server in old(settings) && confirm ==>
                settings == old(settings) - {server} && effects == [Save, Say(SettingsDeleted)]
    {
      if server !in settings {
        return [Say(NeverEnabled)];
      }
      effects := [];
      if confirm {
        settings := settings - {server};
        effects := [Save, Say(SettingsDeleted)];
      }
    }

    /**
     * `addrole`. `role` is the role found by name, `botTopRank` the rank of the
     * bot's highest role, `fetched` the invite list this handler fetches and
     * `refetched` the one the `inv_update` inside it fetches; `roles` maps the
     * server's role ids to their names; `confirm` answers the replace dialogue.
     */
    method AddRole(server: ServerId, invite: string, role: Option<RoleRef>, botTopRank: int,
                   fetched: Option<seq<LiveInvite>>, refetched: Option<seq<LiveInvite>>,
                   roles: map<RoleId, string>, confirm: bool) returns (effects: seq<Effect>)
      requires Valid()
      modifies this
      ensures Valid()
      ensures var s0 := Initialised(old(settings), server);
              if role.None? then settings == s0 && effects == [Say(NoSuchRole)]
              else if botTopRank <= role.value.rank then settings == s0 && effects == [Say(RoleTooHigh)]
              else if fetched.None? then settings == s0 && effects == [Say(NoInvites)]
              else
                var code := InviteCode(invite);
                var s1 := UpdateSpec(s0, server, refetched);
                var synced := if refetched.Some? then [Save] else [];
                match BindTarget(fetched.value, code, s1[server].invites)
                case None => settings == s1 && effects == synced + [Say(NoSuchInvite)]
                case Some(url) =>
                  var rec := s1[server].invites[url];
                  if rec.role.Some? && rec.role.value in roles && !confirm then
                    settings == s1 && effects == synced
                  else
                    && settings == SetRole(s1, server, url, Some(role.value.id))
                    && effects == synced + [Say(RoleBound(role.value.id, code)), Save]
    {
      if server !in settings {
        ServerInit(server);
      }
      if role.None? {
        return [Say(NoSuchRole)];
      }
      if botTopRank <= role.value.rank {
        return [Say(RoleTooHigh)];
      }
      if fetched.None? {
        return [Say(NoInvites)];
      }
      var invites := fetched.value;
      var code := InviteCode(invite);
      ghost var s0 := settings;
      assert s0 == Initialised(old(settings), server);
      effects := InvUpdate(server, refetched);
      ghost var s1 := settings;
      var target := FindInvite(invites, code, settings[server].invites);
      if target.None? {
        effects := effects + [Say(NoSuchInvite)];
        return;
      }
      var url := target.value;
      var rec := settings[server].invites[url];
      if rec.role.Some? && rec.role.value in roles {
        if !confirm {
          return;
        }
      }
      SetRoleKeepsWellFormed(settings, server, url, Some(role.value.id));
      settings := SetRole(settings, server, url, Some(role.value.id));
      effects := effects + [Say(RoleBound(role.value.id, code)), Save];
    }

    /** `removerole`; `confirm` answers the confirmation dialogue. */
    method RemoveRole(server: ServerId, invite: string, roles: map<RoleId, string>, confirm: bool)
      returns (effects: seq<Effect>)
      requires Valid()
      modifies this
      ensures Valid()
      ensures var s0 := Initialised(old(settings), server);
              var url := InviteKey(invite);
              if url !in s0[server].invites || s0[server].invites[url].role.None? then
                settings == s0 && effects == [Say(NoRoleBound)]
              else if !confirm then settings == s0 && effects == []
              else
                var rec := s0[server].invites[url];
                && settings == SetRole(s0, server, url, None)
                && effects == [Say(RoleUnbound(RoleName(roles, rec.role.value))), Save]
    {
      if server !in settings {
        ServerInit(server);
      }
      var url := InviteKey(invite);
      if url !in settings[server].invites || settings[server].invites[url].role.None? {
        return [Say(NoRoleBound)];
      }
      var roleName := RoleName(roles, settings[server].invites[url].role.value);
      effects := [];
      if confirm {
        var rec := settings[server].invites[url];
        settings := settings[server := settings[server].(invites := settings[server].invites[url := rec.(role := None)])];
        effects := [Say(RoleUnbound(roleName)), Save];
      }
    }

    /** `list`; `order` is the iteration order of the server's stored invites. */
    method List(server: ServerId, order: seq<string>, roles: map<RoleId, string>) returns (effects: seq<Effect>)
      requires Valid()
      requires forall k :: k in order <==> server in settings && k in settings[server].invites
      requires forall i, j :: 0 <= i < j < |order| ==> order[i] != order[j]
      modifies this
      ensures Valid()
      ensures settings == Initialised(old(settings), server)
      ensures StoredUrls(order, settings[server].invites)
      ensures var body := ListBody(order, settings[server].invites, roles);
              effects == [Say(if body != "" then InviteList(ListMessage(body)) else NoBoundInvites)]
    {
      if server !in settings {
        ServerInit(server);
      }
      assert StoredUrls(order, settings[server].invites);
      var msg := ListInvites(order, settings[server].invites, roles);
      if msg != "" {
        effects := [Say(InviteList("List of invites with roles attached to them:\n```\nInvite   : Role\n" + msg + "```"))];
      } else {
        effects := [Say(NoBoundInvites)];
      }
    }

    /**
     * `on_member_join`. `fetched` is the invite list the handler fetches,
     * `refetched` the one its final `inv_update` fetches.
     */
    method OnMemberJoin(server: ServerId, isBot: bool, fetched: Option<seq<LiveInvite>>,
                        refetched: Option<seq<LiveInvite>>, roles: map<RoleId, string>) returns (effects: seq<Effect>)
      requires Valid()
      modifies this
      ensures Valid()
      ensures server !in old(settings) || old(settings)[server].channel.None? ==>
                settings == old(settings) && effects == []
      ensures server in old(settings) && old(settings)[server].channel.Some? && fetched.None? ==>
                settings == old(settings) && effects == [Say(NoInvites)]
      ensures server in old(settings) && old(settings)[server].channel.Some? && fetched.Some? ==>
                var s := old(settings)[server];
                && settings == UpdateSpec(old(settings), server, refetched)
                && effects == BotRoleEffects(isBot, s, roles) + JoinLoop(fetched.value, s, roles)
                              + (if refetched.Some? then [Save] else [])
    {
      effects := [];
      if server !in settings {
        return;
      }
      var s := settings[server];
      var channel := s.channel;
      if channel.None? {
        return;
      }
      if fetched.None? {
        return [Say(NoInvites)];
      }
      var invites := fetched.value;
      if isBot && s.botRoleToggle == true {
        if s.botRole.Some? && s.botRole.value in roles {
          effects := effects + [GiveRole(s.botRole.value)];
        }
      }
      var attributed := Attribute(invites, s, roles);
      effects := effects + attributed;
      var synced := InvUpdate(server, refetched);
      effects := effects + synced;
    }
  }

  /** The search loop of `addrole`: the first live invite with that code that is stored. */
  method FindInvite(invites: seq<LiveInvite>, code: string, stored: Invites) returns (target: Option<string>)
    ensures target == BindTarget(invites, code, stored)
  {
    var i := 0;
    while i < |invites|
      invariant 0 <= i <= |invites|
      invariant BindTarget(invites[i..], code, stored) == BindTarget(invites, code, stored)
    {
      var inv := invites[i];
      var url := Url(inv);
      if UrlCode(url) == code && url in stored {
        return Some(url);
      }
      assert invites[i..][1..] == invites[i + 1..];
      i := i + 1;
    }
    return None;
  }

  /** The attribution loop of `on_member_join` over the settings `s` read at its start. */
  method Attribute(invites: seq<LiveInvite>, s: ServerSettings, roles: map<RoleId, string>) returns (effects: seq<Effect>)
    requires s.channel.Some?
    ensures effects == JoinLoop(invites, s, roles)
  {
    var channel := s.channel;
    var jsonList := s.invites;
    effects := [];
    var i := 0;
    while i < |invites|
      invariant 0 <= i <= |invites|
      invariant effects + JoinLoop(invites[i..], s, roles) == JoinLoop(invites, s, roles)
    {
      var inv := invites[i];
      assert invites[i..][1..] == invites[i + 1..];
      if Url(inv) in jsonList && inv.uses > jsonList[Url(inv)].uses {
        var rec := jsonList[Url(inv)];
        var shown: RoleLabel;
        ghost var prev := effects;
        if rec.role.Some? {
          if rec.role.value in roles {
            effects := effects + [GiveRole(rec.role.value)];
            shown := BoundRole(roles[rec.role.value]);
          } else {
            shown := DeletedRole;
          }
        } else {
          shown := NoRole;
        }
        if s.join == true {
          effects := effects + [Announce(channel.value, Url(inv), shown, s.embed)];
          assert effects == prev + Attribution(inv, s, roles);
          assert invites[i..] == [inv] + invites[i + 1..];
          break;
        }
        assert effects == prev + Attribution(inv, s, roles);
      }
      i := i + 1;
    }
    assert invites[|invites|..] == [];
  }

  /** The body of the `list` loop for one stored invite. */
  method InviteLine(inv: string, invites: Invites, roles: map<RoleId, string>) returns (line: string)
    requires inv in invites && HasPrefix(inv, HttpPrefix)
    ensures line == LineFor(inv, invites, roles)
  {
    line := "";
    if invites[inv].role.Some? {
      var roleName := RoleName(roles, invites[inv].role.value);
      var code := UrlCode(inv);
      var n := if 8 - |code| > 0 then 8 - |code| else 0;
      var spaces := Spaces(n);
      assert PadCode(code) == code + spaces;
      line := code + spaces + " : " + roleName + "\n";
    }
  }

  /** The loop of `list`: one padded line per stored invite that has a role. */
  method ListInvites(order: seq<string>, invites: Invites, roles: map<RoleId, string>) returns (msg: string)
    requires StoredUrls(order, invites)
    ensures msg == ListBody(order, invites, roles)
    ensures msg == "" <==> forall k :: k in order ==> invites[k].role.None?
  {
    msg := "";
    var i := 0;
    while i < |order|
      invariant 0 <= i <= |order|
      invariant msg == ListBody(order[..i], invites, roles)
    {
      var inv := order[i];
      ListBodySnoc(order, i, invites, roles);
      var line := InviteLine(inv, invites, roles);
      msg := msg + line;
      i := i + 1;
    }
    assert order[..i] == order;
    ListEmptyIff(order, invites, roles);
  }

  /** An unknown server first gets the defaults; a known one is left as it is. */
  function Initialised(settings: Settings, server: ServerId): (r: Settings)
    ensures server in r
    ensures server in settings ==> r == settings
    ensures server !in settings ==> r[server] == Defaults && r - {server} == settings - {server}
  {
    if server in settings then settings else settings[server := Defaults]
  }

  /** The settings with the role of one stored invite replaced; its uses and everything else kept. */
  function SetRole(settings: Settings, server: ServerId, url: string, role: Option<RoleId>): (r: Settings)
    requires server in settings && url in settings[server].invites
    ensures r.Keys == settings.Keys && r[server].invites.Keys == settings[server].invites.Keys
    ensures r[server].invites[url] == InviteRecord(settings[server].invites[url].uses, role)
    ensures r[server] == settings[server].(invites := r[server].invites)
    ensures forall sv :: sv in settings && sv != server ==> r[sv] == settings[sv]
    ensures forall u :: u in settings[server].invites && u != url ==> r[server].invites[u] == settings[server].invites[u]
  {
    var s := settings[server];
    settings[server := s.(invites := s.invites[url := s.invites[url].(role := role)])]
  }

  lemma SetRoleKeepsWellFormed(settings: Settings, server: ServerId, url: string, role: Option<RoleId>)
    requires server in settings && url in settings[server].invites
    requires WellFormed(settings)
    ensures WellFormed(SetRole(settings, server, url, role))
  {
  }

  /** Setting the role twice leaves only the second. */
  lemma SetRoleTwice(settings: Settings, server: ServerId, url: string, a: Option<RoleId>, b: Option<RoleId>)
    requires server in settings && url in settings[server].invites
    ensures SetRole(SetRole(settings, server, url, a), server, url, b) == SetRole(settings, server, url, b)
  {
    var once := SetRole(settings, server, url, a);
    assert SetRole(once, server, url, b)[server].invites == SetRole(settings, server, url, b)[server].invites;
  }

  /** The stored invite `addrole` binds to: the first live one with that code that is stored. */
  function BindTarget(live: seq<LiveInvite>, code: string, stored: Invites): (r: Option<string>)
    ensures r.Some? ==> r.value in stored && exists inv :: inv in live && Url(inv) == r.value && UrlCode(r.value) == code
    ensures r.None? ==> forall inv :: inv in live ==> !(UrlCode(Url(inv)) == code && Url(inv) in stored)
  {
    if live == [] then None
    else if UrlCode(Url(live[0])) == code && Url(live[0]) in stored then Some(Url(live[0]))
    else BindTarget(live[1..], code, stored)
  }

  // ---------------------------------------------------------------------------
  // Client-level properties

  /** Toggling join messages twice restores the settings. */
  method ToggleJoinTwice(c: InviteUtils, server: ServerId)
    requires c.Valid()
    modifies c
    ensures c.settings == old(c.settings)
  {
    var e1 := c.ToggleJoin(server);
    var e2 := c.ToggleJoin(server);
  }

  /** Toggling leave messages twice restores the settings. */
  method ToggleLeaveTwice(c: InviteUtils, server: ServerId)
    requires c.Valid()
    modifies c
    ensures c.settings == old(c.settings)
  {
    var e1 := c.ToggleLeave(server);
    var e2 := c.ToggleLeave(server);
  }

  /** Toggling embeds twice, with the same view of the channels, restores the settings. */
  method EmbedTwiceRestores(c: InviteUtils, server: ServerId, visible: set<ChannelId>, canEmbed: bool)
    requires c.Valid()
    modifies c
    ensures c.settings == old(c.settings)
  {
    var e1 := c.ToggleEmbed(server, visible, canEmbed);
    var e2 := c.ToggleEmbed(server, visible, canEmbed);
  }

  /** For slash-free live codes, the URL's field 3 is the code itself. */
  lemma UrlCodeOfLive(inv: LiveInvite)
    requires '/' !in inv.code
    ensures UrlCode(Url(inv)) == inv.code
  {
    NormalisationAgrees(inv.code);
    assert Url(inv) == Url(LiveInvite(inv.code, 0));
  }

  /** When codes have no '/', `addrole` binds to the invite whose code was named. */
  lemma {:induction false} BindTargetFinds(live: seq<LiveInvite>, code: string, stored: Invites, i: nat)
    requires i < |live| && live[i].code == code
    requires forall inv :: inv in live ==> '/' !in inv.code
    requires HttpPrefix + code in stored
    ensures BindTarget(live, code, stored) == Some(HttpPrefix + code)
  {
    UrlCodeOfLive(live[0]);
    if UrlCode(Url(live[0])) == code && Url(live[0]) in stored {
    } else {
      assert i > 0;
      assert live[1..][i - 1] == live[i];
      BindTargetFinds(live[1..], code, stored, i - 1);
    }
  }

  /** `addrole` through the https URL of a live invite binds the role to that invite. */
  method BindByUrl(c: InviteUtils, server: ServerId, live: seq<LiveInvite>, i: nat,
                   role: RoleRef, botTopRank: int, roles: map<RoleId, string>)
    requires c.Valid() && server in c.settings
    requires i < |live|
    requires forall inv :: inv in live ==> '/' !in inv.code
    requires role.rank < botTopRank
    modifies c
    ensures c.Valid()
    ensures var s1 := UpdateSpec(old(c.settings), server, Some(live));
            && Url(live[i]) in s1[server].invites
            && c.settings == SetRole(s1, server, Url(live[i]), Some(role.id))
  {
    var code := live[i].code;
    NormalisationAgrees(code);
    assert Url(live[i]) in LiveUrls(live);
    ghost var s1 := UpdateSpec(c.settings, server, Some(live));
    assert Initialised(c.settings, server) == c.settings;
    BindTargetFinds(live, code, s1[server].invites, i);
    var e := c.AddRole(server, HttpsPrefix + code, Some(role), botTopRank, Some(live), Some(live), roles, true);
  }

  /**
   * A role bound with `addrole` through the https URL is unbound with `removerole`
   * through the bare code: the invite ends up reconciled and without a role.
   */
  method BindThenUnbind(c: InviteUtils, server: ServerId, live: seq<LiveInvite>, i: nat,
                        role: RoleRef, botTopRank: int, roles: map<RoleId, string>)
    requires c.Valid() && server in c.settings
    requires i < |live|
    requires forall inv :: inv in live ==> '/' !in inv.code
    requires role.rank < botTopRank
    modifies c
    ensures var s1 := UpdateSpec(old(c.settings), server, Some(live));
            && Url(live[i]) in s1[server].invites
            && c.settings == SetRole(s1, server, Url(live[i]), None)
  {
    ghost var s1 := UpdateSpec(c.settings, server, Some(live));
    BindByUrl(c, server, live, i, role, botTopRank, roles);
    NormalisationAgrees(live[i].code);
    assert Initialised(c.settings, server) == c.settings;
    var e := c.RemoveRole(server, live[i].code, roles, true);
    SetRoleTwice(s1, server, Url(live[i]), Some(role.id), None);
  }
}
