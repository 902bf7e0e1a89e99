/**
 * The `/api/servers` handler: it compares the guild ids remembered in the
 * session token with the guilds the chat service reports, projects each
 * guild to what the client sees (manage permission, icon addresses), sorts
 * them by name and splits them into guilds that already have the bot,
 * guilds the user may add it to, and the rest.
 *
 * The session lookup, the database query for guilds that have the bot and
 * the call to the chat service are inputs; the locale-aware name order is
 * a comparison supplied by the caller.
 */
module Servers {
  import opened Common

  /** A guild as the chat service lists it for the user (`GuildInfo`). */
  datatype GuildInfo = GuildInfo(
    id: string,
    name: string,
    icon: Option<string>,
    owner: bool,
    permissions: nat,
    features: seq<string>)

  /** `ClientDiscordGuildInfo` */
  datatype ClientGuild = ClientGuild(
    id: string,
    name: string,
    canManage: bool,
    iconUrl: Option<string>,
    hoverIconUrl: Option<string>)

  datatype ServersResponse = ServersResponse(
    added: seq<ClientGuild>,
    managed: seq<ClientGuild>,
    other: seq<ClientGuild>,
    tokenNeedsRefresh: bool)

  /** The handler answers 403 without a session token, 200 with the grouping otherwise. */
  datatype Reply = NotAuthenticated | Ok(body: ServersResponse)

  // ---------------------------------------------------------------------
  // Comparing id lists

  /**
   * `compareGuildIdArrays`: equal lengths, then sorted copies compared
   * position by position. The inputs are values, so sorting the copies
   * cannot disturb them.
   */
  method CompareGuildIdArrays(a: seq<string>, b: seq<string>) returns (same: bool)
    ensures |a| != |b| ==> !same
    ensures same <==> multiset(a) == multiset(b)
    ensures same <==> SortBy(a, StringLe) == SortBy(b, StringLe)
  {
    var length := |a|;
    if length != |b| {
      assert |multiset(a)| != |multiset(b)| by { StringSortAgrees(a, b); }
      StringSortAgrees(a, b);
      return false;
    }
    var sa := SortBy(a, StringLe);
    var sb := SortBy(b, StringLe);
    same := ElementwiseEqual(sa, sb);
    StringSortAgrees(a, b);
  }

  /** The indexed `for` loop of `compareGuildIdArrays` over the two sorted copies. */
  method ElementwiseEqual(sa: seq<string>, sb: seq<string>) returns (same: bool)
    requires |sa| == |sb|
    ensures same <==> sa == sb
  {
    for i := 0 to |sa|
      invariant sa[..i] == sb[..i]
    {
      if sa[i] != sb[i] {
        return false;
      }
    }
    assert sa == sa[..|sa|] && sb == sb[..|sb|];
    return true;
  }

  lemma StringSortAgrees(a: seq<string>, b: seq<string>)
    ensures SortBy(a, StringLe) == SortBy(b, StringLe) <==> multiset(a) == multiset(b)
  {
    StringLeIsTotalOrder();
    SortByAgrees(a, b, StringLe);
  }

  function GuildIds(guilds: seq<GuildInfo>): (ids: seq<string>)
    ensures |ids| == |guilds|
    ensures forall i :: 0 <= i < |guilds| ==> ids[i] == guilds[i].id
  {
    seq(|guilds|, i requires 0 <= i < |guilds| => guilds[i].id)
  }

  // ---------------------------------------------------------------------
  // Projection of one guild

  /** Bitwise AND of two naturals, as `BigInt`'s `&` computes it. */
  function BitAnd(a: nat, b: nat): nat
  {
    if a == 0 || b == 0 then 0
    else 2 * BitAnd(a / 2, b / 2) + (if a % 2 == 1 && b % 2 == 1 then 1 else 0)
  }

  /** `(BigInt(permissions) & BigInt(1 << 3)) === BigInt(1 << 3)` */
  predicate CanManage(permissions: nat) {
    BitAnd(permissions, 8) == 8
  }

  /** The manage permission is bit 3 (value 8) of the permission number. */
  lemma CanManageIsBitThree(permissions: nat)
    ensures CanManage(permissions) <==> (permissions / 8) % 2 == 1
  {
    var p := permissions;
    if p != 0 {
      var q := p / 2;
      assert BitAnd(p, 8) == 2 * BitAnd(q, 4);
      if q != 0 {
        var r := q / 2;
        assert BitAnd(q, 4) == 2 * BitAnd(r, 2);
        if r != 0 {
          var t := r / 2;
          assert BitAnd(r, 2) == 2 * BitAnd(t, 1);
          assert BitAnd(t, 1) == t % 2;
          assert t == p / 8;
        } else {
          assert p < 8;
        }
      } else {
        assert p < 8;
      }
    }
  }

  /** Higher bits do not matter: adding multiples of 16 keeps the answer. */
  lemma CanManageIgnoresHigherBits(permissions: nat, k: nat)
    ensures CanManage(permissions + 16 * k) == CanManage(permissions)
  {
    CanManageIsBitThree(permissions);
    CanManageIsBitThree(permissions + 16 * k);
    assert (permissions + 16 * k) / 8 == permissions / 8 + 2 * k;
  }

  const IconBase := "https://cdn.discordapp.com/icons/"

  /** The icon field counts only when it is present and not empty (`icon ? … : null`). */
  predicate HasIcon(icon: Option<string>) {
    icon.Some? && icon.value != ""
  }

  /** `icon?.startsWith("a_") ? "gif" : "png"` */
  function IconFormat(icon: Option<string>): string {
    if icon.Some? && StartsWith(icon.value, "a_") then "gif" else "png"
  }

  function IconUrl(id: string, icon: Option<string>): Option<string> {
    if HasIcon(icon) then Some(IconBase + id + "/" + icon.value + ".png") else None
  }

  function HoverIconUrl(id: string, icon: Option<string>): Option<string> {
    if HasIcon(icon) then Some(IconBase + id + "/" + icon.value + "." + IconFormat(icon)) else None
  }

  /** The `guilds.map(…)` projection of one guild. */
  function Project(g: GuildInfo): (c: ClientGuild)
    ensures c.id == g.id && c.name == g.name
    ensures c.canManage <==> (g.permissions / 8) % 2 == 1
    ensures c.iconUrl.None? <==> !HasIcon(g.icon)
    ensures c.hoverIconUrl.None? <==> c.iconUrl.None?
    ensures c.iconUrl.Some? ==> EndsWith(c.iconUrl.value, ".png")
    ensures c.iconUrl.Some? ==> StartsWith(c.iconUrl.value, IconBase + g.id + "/" + g.icon.value)
    ensures c.hoverIconUrl.Some? ==> StartsWith(c.hoverIconUrl.value, IconBase + g.id + "/" + g.icon.value)
    ensures c.hoverIconUrl.Some? ==>
              && (EndsWith(c.hoverIconUrl.value, ".gif") <==> StartsWith(g.icon.value, "a_"))
              && (EndsWith(c.hoverIconUrl.value, ".png") <==> !StartsWith(g.icon.value, "a_"))
  {
    CanManageIsBitThree(g.permissions);
    IconUrlFacts(g.id, g.icon);
    IconUrlNamesIcon(g.id, g.icon);
    ClientGuild(g.id, g.name, CanManage(g.permissions), IconUrl(g.id, g.icon), HoverIconUrl(g.id, g.icon))
  }

  lemma IconUrlFacts(id: string, icon: Option<string>)
    ensures IconUrl(id, icon).Some? ==> EndsWith(IconUrl(id, icon).value, ".png")
    ensures HoverIconUrl(id, icon).Some? ==>
              && (EndsWith(HoverIconUrl(id, icon).value, ".gif") <==> StartsWith(icon.value, "a_"))
              && (EndsWith(HoverIconUrl(id, icon).value, ".png") <==> !StartsWith(icon.value, "a_"))
  {
    if HasIcon(icon) {
      var stem := IconBase + id + "/" + icon.value;
      var ext := "." + IconFormat(icon);
      EndsWithAppend(stem, ".png");
      assert HoverIconUrl(id, icon).value == stem + ext;
      EndsWithSameLength(stem, ext, ".gif");
      EndsWithSameLength(stem, ext, ".png");
      assert ".png" != ".gif" by {
        assert ".png"[1] != ".gif"[1];
      }
    }
  }

  /** Both addresses name this guild's icon under the CDN base. */
  lemma IconUrlNamesIcon(id: string, icon: Option<string>)
    ensures IconUrl(id, icon).Some? ==> StartsWith(IconUrl(id, icon).value, IconBase + id + "/" + icon.value)
    ensures HoverIconUrl(id, icon).Some? ==> StartsWith(HoverIconUrl(id, icon).value, IconBase + id + "/" + icon.value)
  {
    if HasIcon(icon) {
      var stem := IconBase + id + "/" + icon.value;
      assert (stem + ".png")[..|stem|] == stem;
      assert HoverIconUrl(id, icon).value == stem + ("." + IconFormat(icon));
      assert (stem + ("." + IconFormat(icon)))[..|stem|] == stem;
    }
  }

  function ProjectAll(guilds: seq<GuildInfo>): (cs: seq<ClientGuild>)
    ensures |cs| == |guilds|
    ensures forall i :: 0 <= i < |guilds| ==> cs[i] == Project(guilds[i])
  {
    seq(|guilds|, i requires 0 <= i < |guilds| => Project(guilds[i]))
  }

  /** `clientGuilds.sort((a, b) => a.name.localeCompare(b.name))`, the name order given as `nameLe`. */
  function SortByName(cs: seq<ClientGuild>, nameLe: (string, string) -> bool): seq<ClientGuild> {
    SortBy(cs, (x: ClientGuild, y: ClientGuild) => nameLe(x.name, y.name))
  }

  // ---------------------------------------------------------------------
  // Grouping

  datatype Group = Added | Managed | Other

  /** Bot presence is tested first, then the manage permission. */
  function GroupOf(g: ClientGuild, withBot: set<string>): Group {
    if g.id in withBot then Added else if g.canManage then Managed else Other
  }

  /** The guilds of `gs` that fall in `grp`, in their order in `gs`. */
  function InGroup(gs: seq<ClientGuild>, withBot: set<string>, grp: Group): seq<ClientGuild>
  {
    if gs == [] then []
    else
      var last := gs[|gs| - 1];
      InGroup(gs[..|gs| - 1], withBot, grp) + (if GroupOf(last, withBot) == grp then [last] else [])
  }

  lemma {:induction false} InGroupMembers(gs: seq<ClientGuild>, withBot: set<string>, grp: Group)
    ensures forall g :: g in InGroup(gs, withBot, grp) <==> g in gs && GroupOf(g, withBot) == grp
  {
    if gs != [] {
      InGroupMembers(gs[..|gs| - 1], withBot, grp);
      assert gs == gs[..|gs| - 1] + [gs[|gs| - 1]];
    }
  }

  /** The three groups taken together. */
  function AllGroups(gs: seq<ClientGuild>, withBot: set<string>): multiset<ClientGuild> {
    multiset(InGroup(gs, withBot, Added)) + multiset(InGroup(gs, withBot, Managed))
      + multiset(InGroup(gs, withBot, Other))
  }

  lemma AllGroupsSnoc(init: seq<ClientGuild>, last: ClientGuild, withBot: set<string>)
    ensures AllGroups(init + [last], withBot) == AllGroups(init, withBot) + multiset{last}
  {
    var gs := init + [last];
    assert gs[..|init|] == init;
    var A, M, O := InGroup(init, withBot, Added), InGroup(init, withBot, Managed), InGroup(init, withBot, Other);
    match GroupOf(last, withBot)
    case Added =>
      assert InGroup(gs, withBot, Added) == A + [last];
    case Managed =>
      assert InGroup(gs, withBot, Managed) == M + [last];
    case Other =>
      assert InGroup(gs, withBot, Other) == O + [last];
  }

  /** Every guild lands in exactly one of the three groups, as often as it occurs. */
  lemma {:induction false} GroupsPartition(gs: seq<ClientGuild>, withBot: set<string>)
    ensures AllGroups(gs, withBot) == multiset(gs)
  {
    if gs != [] {
      var init, last := gs[..|gs| - 1], gs[|gs| - 1];
      GroupsPartition(init, withBot);
      assert gs == init + [last];
      AllGroupsSnoc(init, last, withBot);
    }
  }

  /** The `for … of` loop that pushes every guild onto one of three lists. */
  method GroupGuilds(gs: seq<ClientGuild>, withBot: set<string>)
    returns (added: seq<ClientGuild>, managed: seq<ClientGuild>, other: seq<ClientGuild>)
    ensures added == InGroup(gs, withBot, Added)
    ensures managed == InGroup(gs, withBot, Managed)
    ensures other == InGroup(gs, withBot, Other)
    ensures |added| + |managed| + |other| == |gs|
  {
    added, managed, other := [], [], [];
    for i := 0 to |gs|
      invariant added == InGroup(gs[..i], withBot, Added)
      invariant managed == InGroup(gs[..i], withBot, Managed)
      invariant other == InGroup(gs[..i], withBot, Other)
    {
      assert gs[..i + 1][..i] == gs[..i];
      var guild := gs[i];
      if guild.id in withBot {
        added := added + [guild];
      } else if guild.canManage {
        managed := managed + [guild];
      } else {
        other := other + [guild];
      }
    }
    assert gs[..|gs|] == gs;
    GroupsPartition(gs, withBot);
    assert |multiset(added)| + |multiset(managed)| + |multiset(other)| == |multiset(gs)|;
  }

  // ---------------------------------------------------------------------
  // The handler

  /**
   * The handler body. `token` holds the session's remembered guild ids
   * (absent without a session), `guilds` what the chat service reports,
   * `withBot` the ids the database knows to have the bot.
   */
  method HandleServers(token: Option<seq<string>>, guilds: seq<GuildInfo>,
                       nameLe: (string, string) -> bool, withBot: set<string>)
    returns (reply: Reply)
    ensures token.None? <==> reply.NotAuthenticated?
    ensures reply.Ok? ==>
              && (reply.body.tokenNeedsRefresh <==> multiset(token.value) != multiset(GuildIds(guilds)))
              && var sorted := SortByName(ProjectAll(guilds), nameLe);
                 && reply.body.added == InGroup(sorted, withBot, Added)
                 && reply.body.managed == InGroup(sorted, withBot, Managed)
                 && reply.body.other == InGroup(sorted, withBot, Other)
  {
    if token.None? {
      return NotAuthenticated;
    }
    var same := CompareGuildIdArrays(token.value, GuildIds(guilds));
    var tokenNeedsRefresh := !same;
    var clientGuilds := SortByName(ProjectAll(guilds), nameLe);
    var added, managed, other := GroupGuilds(clientGuilds, withBot);
    return Ok(ServersResponse(added, managed, other, tokenNeedsRefresh));
  }

  /** The client list is a reordering of the projected guilds, in name order when the order is total. */
  lemma SortedClientGuilds(guilds: seq<GuildInfo>, nameLe: (string, string) -> bool)
    requires TotalPreorder(nameLe)
    ensures multiset(SortByName(ProjectAll(guilds), nameLe)) == multiset(ProjectAll(guilds))
    ensures forall i, j :: 0 <= i < j < |guilds| ==>
              nameLe(SortByName(ProjectAll(guilds), nameLe)[i].name, SortByName(ProjectAll(guilds), nameLe)[j].name)
  {
    var le := (x: ClientGuild, y: ClientGuild) => nameLe(x.name, y.name);
    SortByPermutes(ProjectAll(guilds), le);
    assert TotalPreorder(le) by {
      forall x: ClientGuild, y: ClientGuild ensures le(x, y) || le(y, x) {
        assert nameLe(x.name, y.name) || nameLe(y.name, x.name);
      }
      forall x: ClientGuild, y: ClientGuild, z: ClientGuild | le(x, y) && le(y, z) ensures le(x, z) {
        assert nameLe(x.name, y.name) && nameLe(y.name, z.name);
      }
    }
    SortBySorted(ProjectAll(guilds), le);
  }
}
