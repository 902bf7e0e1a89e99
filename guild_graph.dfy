/**
 * The graph aggregation of `components/guildGraph.tsx`: the fold of the
 * loaded event pages into weighted node and link totals under a decaying
 * budget (`computeGraphData`), the link and node output stages, the paging
 * key of `useGuildEvents` and the transparency rule of the node objects.
 *
 * Weights are exact reals; the engine's floating point is not modelled.
 * Timestamps are kept as the strings the server sends.
 */
module GuildGraph {
  import opened Common

  /** A relationship event as the server sends it; `reason` indexes the weight keys. */
  datatype Event = Event(timestamp: string, source: string, target: string, reason: int)

  /** The part of a guild member the graph reads. */
  datatype Member = Member(id: string, bot: bool, nickname: string, avatar: string)

  /** One page of the event API: its events, the members they mention, and the page limit. */
  datatype Page = Page(events: seq<Event>, users: seq<Member>, limit: int)

  /** The graph settings; every field may be absent. */
  datatype Config = Config(excludeBots: Option<bool>, decayAmount: Option<real>, decayThreshold: Option<real>,
                           linkThreshold: Option<real>, nodeThreshold: Option<real>,
                           weights: Option<map<string, real>>)

  /** The settings in force after the defaults of `DEFAULT_GRAPH_CONFIG` are applied. */
  datatype Params = Params(excludeBots: bool, decayAmount: real, decayThreshold: real,
                           linkThreshold: real, nodeThreshold: real, weights: Option<map<string, real>>)

  function OrDefault(o: Option<real>, d: real): real {
    if o.Some? then o.value else d
  }

  /**
   * Lines 207-210 with the defaults of `lib/guildGraphConfig.ts`. Bot
   * exclusion reads the setting itself (line 250): absent means off.
   */
  function Resolve(c: Config): (p: Params)
    ensures p.excludeBots <==> c.excludeBots == Some(true)
    ensures c.decayThreshold.None? ==> p.decayThreshold == 0.6
    ensures c.decayThreshold.Some? ==> p.decayThreshold == c.decayThreshold.value
    ensures c.decayAmount.None? ==> p.decayAmount == 0.001
    ensures c.decayAmount.Some? ==> p.decayAmount == c.decayAmount.value
    ensures c.linkThreshold.None? ==> p.linkThreshold == 2.0
    ensures c.linkThreshold.Some? ==> p.linkThreshold == c.linkThreshold.value
    ensures c.nodeThreshold.None? ==> p.nodeThreshold == 4.0
    ensures c.nodeThreshold.Some? ==> p.nodeThreshold == c.nodeThreshold.value
    ensures p.weights == c.weights
  {
    Params(c.excludeBots == Some(true), OrDefault(c.decayAmount, 0.001), OrDefault(c.decayThreshold, 0.6),
           OrDefault(c.linkThreshold, 2.0), OrDefault(c.nodeThreshold, 4.0), c.weights)
  }

  /** `WEIGHT_KEYS[reason]`: reason 0 and every reason out of range have no key. */
  function WeightKey(reason: int): (k: Option<string>)
    ensures k.Some? <==> 1 <= reason <= 5
  {
    if reason == 1 then Some("reaction")
    else if reason == 2 then Some("message-direct-mention")
    else if reason == 3 then Some("message-indirect-mention")
    else if reason == 4 then Some("message-adjacency")
    else if reason == 5 then Some("message-binary-sequence")
    else None
  }

  function DefaultWeight(key: string): real {
    if key == "reaction" then 0.1
    else if key == "message-direct-mention" then 2.0
    else if key == "message-indirect-mention" then 1.0
    else if key == "message-adjacency" then 0.5
    else if key == "message-binary-sequence" then 0.5
    else 0.0
  }

  /** Line 243: a configured weight wins, even zero; otherwise the default. */
  function EventWeight(p: Params, key: string): (w: real)
    ensures p.weights.Some? && key in p.weights.value ==> w == p.weights.value[key]
    ensures p.weights.None? || key !in p.weights.value ==> w == DefaultWeight(key)
  {
    if p.weights.Some? && key in p.weights.value then p.weights.value[key] else DefaultWeight(key)
  }

  /** Without configured weights, every event with a weight key has a positive weight. */
  lemma DefaultWeightsPositive(p: Params, reason: int)
    requires p.weights.None?
    requires WeightKey(reason).Some?
    ensures EventWeight(p, WeightKey(reason).value) > 0.0
  {
  }

  /** `userInfo.get(id)?.bot` */
  predicate IsBot(info: map<string, Member>, id: string) {
    id in info && info[id].bot
  }

  function Get0(m: map<string, real>, k: string): real {
    if k in m then m[k] else 0.0
  }

  /** `m.set(k, (m.get(k) ?? 0) + w)` */
  function AddWeight(m: map<string, real>, k: string, w: real): (r: map<string, real>)
    ensures r.Keys == m.Keys + {k}
    ensures Get0(r, k) == Get0(m, k) + w
    ensures forall j :: j != k ==> Get0(r, j) == Get0(m, j)
  {
    m[k := Get0(m, k) + w]
  }

  // ---------------------------------------------------------------------
  // Link keys (lines 257 and 291)

  /**
   * `[s, t].sort().join(':')`: the two ids in code-unit order, joined by a
   * colon (`SortedJoin` below shows this is the sort followed by the join).
   */
  function LinkKey(s: string, t: string): (k: string)
    ensures ':' in k
  {
    var k := if StringLe(s, t) then s + ":" + t else t + ":" + s;
    assert k[|if StringLe(s, t) then s else t|] == ':';
    k
  }

  lemma SortPair(s: string, t: string)
    ensures SortBy([s, t], StringLe) == if StringLe(s, t) then [s, t] else [t, s]
  {
    assert [s, t][1..] == [t];
    assert [t][1..] == [];
    assert SortBy([t], StringLe) == Insert(t, SortBy([], StringLe), StringLe);
    assert Insert(t, [], StringLe) == [t];
    assert SortBy([s, t], StringLe) == Insert(s, [t], StringLe);
    if !StringLe(s, t) {
      assert Insert(s, [t], StringLe) == [t] + Insert(s, [], StringLe);
    }
  }

  /** The link key is the sorted pair joined by a colon. */
  lemma SortedJoin(s: string, t: string)
    ensures var pair := SortBy([s, t], StringLe);
            |pair| == 2 && LinkKey(s, t) == pair[0] + ":" + pair[1]
  {
    SortPair(s, t);
  }

  /** The link key of a pair does not depend on which end is the source. */
  lemma LinkKeySymmetric(s: string, t: string)
    ensures LinkKey(s, t) == LinkKey(t, s)
  {
    StringLeTotal(s, t);
    if StringLe(s, t) && StringLe(t, s) {
      StringLeAntisymmetric(s, t);
    }
  }

  function IndexOfColon(s: string): (i: nat)
    requires ':' in s
    ensures i < |s| && s[i] == ':' && ':' !in s[..i]
  {
    if s[0] == ':' then 0
    else
      assert s == [s[0]] + s[1..];
      var j := IndexOfColon(s[1..]);
      assert s[..j + 1] == [s[0]] + s[1..][..j];
      j + 1
  }

  /** `parts.join(':')` */
  function JoinColon(parts: seq<string>): string
    requires |parts| >= 1
  {
    if |parts| == 1 then parts[0] else parts[0] + ":" + JoinColon(parts[1..])
  }

  /** `key.split(':')`: colon-free parts that join back to the string. */
  function SplitColon(s: string): (parts: seq<string>)
    ensures |parts| >= 1
    ensures ':' in s <==> |parts| >= 2
    ensures forall j :: 0 <= j < |parts| ==> ':' !in parts[j]
    ensures JoinColon(parts) == s
    decreases |s|
  {
    if ':' !in s then [s]
    else
      var i := IndexOfColon(s);
      var rest := SplitColon(s[i + 1..]);
      var parts := [s[..i]] + rest;
      assert parts[1..] == rest;
      assert forall j :: 1 <= j < |parts| ==> parts[j] == rest[j - 1];
      assert s == s[..i] + ":" + s[i + 1..];
      parts
  }

  /**
   * `const [source, target] = key.split(':')`; every link key holds a
   * colon. Both ends are colon-free, and a key with one colon is exactly
   * the two ends joined by it.
   */
  function LinkEnds(key: string): (ends: (string, string))
    requires ':' in key
    ensures ':' !in ends.0 && ':' !in ends.1
    ensures |SplitColon(key)| == 2 ==> key == ends.0 + ":" + ends.1
  {
    var parts := SplitColon(key);
    assert |parts| == 2 ==> parts[1..] == [parts[1]];
    (parts[0], parts[1])
  }

  /** For ids without a colon, the ends read back from a link key are the pair, in sorted order. */
  lemma LinkKeyRoundTrip(s: string, t: string)
    requires ':' !in s && ':' !in t
    ensures var ends := LinkEnds(LinkKey(s, t));
            && (ends.0 == s || ends.0 == t) && (ends.1 == s || ends.1 == t)
            && {ends.0, ends.1} == {s, t}
            && StringLe(ends.0, ends.1)
  {
    var a, b := if StringLe(s, t) then s else t, if StringLe(s, t) then t else s;
    var k := a + ":" + b;
    assert k == LinkKey(s, t);
    assert k[..|a|] == a;
    assert k[|a| + 1..] == b;
    assert k[|a|] == ':';
    assert IndexOfColon(k) == |a|;
    assert SplitColon(b) == [b];
    StringLeTotal(s, t);
  }

  // ---------------------------------------------------------------------
  // The fold over the events (lines 212-272)

  /** The mutable state of the fold at any point. */
  datatype Acc = Acc(userInfo: map<string, Member>, nodes: map<string, real>, links: map<string, real>,
                     decay: real, processed: nat, included: nat,
                     oldest: Option<string>, newest: Option<string>)

  const Start := Acc(map[], map[], map[], 1.0, 0, 0, None, None)

  /** No member after position `i` of `users` has the id of `users[i]`. */
  ghost predicate LastWithId(users: seq<Member>, i: int)
    requires 0 <= i < |users|
  {
    forall j :: i < j < |users| ==> users[j].id != users[i].id
  }

  /** The last member with an id at the head of the page is its only member with that id. */
  lemma LastWithIdHead(users: seq<Member>)
    requires |users| > 0 && LastWithId(users, 0)
    ensures forall u :: u in users[1..] ==> u.id != users[0].id
  {
    forall u | u in users[1..] ensures u.id != users[0].id {
      var j :| 0 <= j < |users[1..]| && users[1..][j] == u;
      assert users[j + 1] == u;
    }
  }

  /** Being the last member with an id survives dropping the head of the page. */
  lemma LastWithIdTail(users: seq<Member>, i: int)
    requires 0 < i < |users| && LastWithId(users, i)
    ensures users[1..][i - 1] == users[i] && LastWithId(users[1..], i - 1)
  {
    forall j | i - 1 < j < |users[1..]| ensures users[1..][j].id != users[1..][i - 1].id {
      assert users[1..][j] == users[j + 1];
    }
  }

  /**
   * Lines 225-227: the members of a page, later ones overwriting earlier
   * ones. The ids known afterwards are the old ones and the page's; an id
   * maps to the last member of the page with it, and an id the page does
   * not mention keeps its old member.
   */
  function AddUsers(info: map<string, Member>, users: seq<Member>): (r: map<string, Member>)
    ensures r.Keys == info.Keys + set u | u in users :: u.id
    ensures forall i :: 0 <= i < |users| && LastWithId(users, i) ==> r[users[i].id] == users[i]
    ensures forall id :: id in info && (forall u :: u in users ==> u.id != id) ==> r[id] == info[id]
    decreases |users|
  {
    if users == [] then info
    else
      var rest := users[1..];
      var r := AddUsers(info[users[0].id := users[0]], rest);
      assert users == [users[0]] + rest;
      forall i | 0 <= i < |users| && LastWithId(users, i) ensures r[users[i].id] == users[i] {
        if i == 0 {
          LastWithIdHead(users);
        } else {
          LastWithIdTail(users, i);
        }
      }
      r
  }

  /**
   * Lines 238-252: whether an event reaches the totals. An event without
   * a weight key or with a bot end under bot exclusion never does; without
   * configured weights and bot exclusion, every event with a key does.
   */
  predicate Included(p: Params, info: map<string, Member>, e: Event): (b: bool)
    ensures !(1 <= e.reason <= 5) ==> !b
    ensures p.excludeBots && (IsBot(info, e.source) || IsBot(info, e.target)) ==> !b
    ensures p.weights.None? && !p.excludeBots && 1 <= e.reason <= 5 ==> b
    ensures WeightKey(e.reason).Some? && EventWeight(p, WeightKey(e.reason).value) <= 0.0 ==> !b
    ensures WeightKey(e.reason).Some? && EventWeight(p, WeightKey(e.reason).value) > 0.0 &&
            !(p.excludeBots && (IsBot(info, e.source) || IsBot(info, e.target)))
            ==> b
  {
    && WeightKey(e.reason).Some?
    && EventWeight(p, WeightKey(e.reason).value) > 0.0
    && !(p.excludeBots && (IsBot(info, e.source) || IsBot(info, e.target)))
  }

  /** The weight an included event adds: its configured weight scaled by the decay so far. */
  function Contribution(p: Params, acc: Acc, e: Event): real
    requires WeightKey(e.reason).Some?
  {
    Scale(EventWeight(p, WeightKey(e.reason).value), acc.decay)
  }

  /** Line 248: `eventWeight * decay` */
  function Scale(eventWeight: real, decay: real): real {
    eventWeight * decay
  }

  /** Line 260: `decay -= weight * decayAmount` */
  function Spend(decay: real, weight: real, decayAmount: real): real {
    decay - weight * decayAmount
  }

  /** Lines 230-262 for one event. */
  function EventStep(p: Params, acc: Acc, e: Event): (r: Acc)
    ensures r.processed == acc.processed + 1 && r.userInfo == acc.userInfo
    ensures (forall k :: k in acc.links ==> ':' in k) ==> (forall k :: k in r.links ==> ':' in k)
    ensures r.oldest == Some(e.timestamp)
    ensures r.newest == if acc.newest.None? then Some(e.timestamp) else acc.newest
    ensures !Included(p, acc.userInfo, e) ==>
              r.nodes == acc.nodes && r.links == acc.links && r.decay == acc.decay && r.included == acc.included
    ensures Included(p, acc.userInfo, e) ==>
              && r.included == acc.included + 1
              && r.decay == Spend(acc.decay, Contribution(p, acc, e), p.decayAmount)
  {
    var seen := acc.(processed := acc.processed + 1, oldest := Some(e.timestamp),
                     newest := if acc.newest.None? then Some(e.timestamp) else acc.newest);
    if !Included(p, acc.userInfo, e) then seen
    else
      var w := Contribution(p, acc, e);
      seen.(nodes := AddWeight(AddWeight(seen.nodes, e.source, w), e.target, w),
            links := AddWeight(seen.links, LinkKey(e.source, e.target), w),
            decay := Spend(seen.decay, w, p.decayAmount), included := seen.included + 1)
  }

  /**
   * An included event adds its contribution to the totals of both ends
   * (twice to one node when the ends coincide) and to the link under its
   * key, and to no other node or link.
   */
  lemma IncludedEventAdds(p: Params, acc: Acc, e: Event)
    requires Included(p, acc.userInfo, e)
    ensures var r := EventStep(p, acc, e);
            var w := Contribution(p, acc, e);
            var key := LinkKey(e.source, e.target);
            && Get0(r.links, key) == Get0(acc.links, key) + w
            && (forall k :: k != key ==> Get0(r.links, k) == Get0(acc.links, k))
            && Get0(r.nodes, e.source) == Get0(acc.nodes, e.source) + (if e.source == e.target then w + w else w)
            && Get0(r.nodes, e.target) == Get0(acc.nodes, e.target) + (if e.source == e.target then w + w else w)
            && (forall k :: k != e.source && k != e.target ==> Get0(r.nodes, k) == Get0(acc.nodes, k))
  {
    var w := Contribution(p, acc, e);
    var n1 := AddWeight(acc.nodes, e.source, w);
    var n2 := AddWeight(n1, e.target, w);
    assert EventStep(p, acc, e).nodes == n2;
    assert EventStep(p, acc, e).links == AddWeight(acc.links, LinkKey(e.source, e.target), w);
  }

  /** The inner loop: events in order, stopping after an included event that exhausts the decay. */
  function RunEvents(p: Params, acc: Acc, events: seq<Event>): (r: Acc)
    ensures r.userInfo == acc.userInfo
    ensures (forall k :: k in acc.links ==> ':' in k) ==> (forall k :: k in r.links ==> ':' in k)
    decreases |events|
  {
    if events == [] then acc
    else
      var a := EventStep(p, acc, events[0]);
      if Included(p, acc.userInfo, events[0]) && a.decay <= p.decayThreshold then a
      else RunEvents(p, a, events[1..])
  }

  /** The new state after an included event, field by field. */
  lemma EventStepIncluded(p: Params, acc: Acc, e: Event)
    requires Included(p, acc.userInfo, e)
    ensures var w := Contribution(p, acc, e);
            EventStep(p, acc, e) ==
              Acc(acc.userInfo, AddWeight(AddWeight(acc.nodes, e.source, w), e.target, w),
                  AddWeight(acc.links, LinkKey(e.source, e.target), w), Spend(acc.decay, w, p.decayAmount),
                  acc.processed + 1, acc.included + 1, Some(e.timestamp),
                  if acc.newest.None? then Some(e.timestamp) else acc.newest)
  {
  }

  lemma SameAcc(a: Acc, b: Acc)
    requires a.userInfo == b.userInfo && a.nodes == b.nodes && a.links == b.links && a.decay == b.decay
    requires a.processed == b.processed && a.included == b.included && a.oldest == b.oldest && a.newest == b.newest
    ensures a == b
  {
  }

  lemma RunEventsAt(p: Params, acc: Acc, events: seq<Event>, j: nat)
    requires j < |events|
    ensures RunEvents(p, acc, events[j..]) ==
              var a := EventStep(p, acc, events[j]);
              if Included(p, acc.userInfo, events[j]) && a.decay <= p.decayThreshold then a
              else RunEvents(p, a, events[j + 1..])
  {
    assert events[j..][0] == events[j];
    assert events[j..][1..] == events[j + 1..];
  }

  /** The outer loop: pages in order, stopping once the decay is exhausted at the end of a page. */
  function RunPages(p: Params, acc: Acc, pages: seq<Page>): (r: Acc)
    ensures (forall k :: k in acc.links ==> ':' in k) ==> (forall k :: k in r.links ==> ':' in k)
    decreases |pages|
  {
    if pages == [] then acc
    else
      var a := RunEvents(p, acc.(userInfo := AddUsers(acc.userInfo, pages[0].users)), pages[0].events);
      if a.decay <= p.decayThreshold then a else RunPages(p, a, pages[1..])
  }

  /** Line 220: the number of events loaded. */
  function TotalEvents(pages: seq<Page>): nat {
    if pages == [] then 0 else |pages[0].events| + TotalEvents(pages[1..])
  }

  lemma {:induction false} EventCountersOrdered(p: Params, acc: Acc, events: seq<Event>)
    ensures var r := RunEvents(p, acc, events);
            && acc.processed <= r.processed <= acc.processed + |events|
            && acc.included <= r.included
            && r.included - acc.included <= r.processed - acc.processed
    decreases |events|
  {
    if events != [] {
      EventCountersOrdered(p, EventStep(p, acc, events[0]), events[1..]);
    }
  }

  /** Every count of included events is at most the count processed, which is at most the count loaded. */
  lemma {:induction false} CountersOrdered(p: Params, acc: Acc, pages: seq<Page>)
    ensures var r := RunPages(p, acc, pages);
            && acc.processed <= r.processed <= acc.processed + TotalEvents(pages)
            && acc.included <= r.included
            && r.included - acc.included <= r.processed - acc.processed
    decreases |pages|
  {
    if pages != [] {
      var start := acc.(userInfo := AddUsers(acc.userInfo, pages[0].users));
      EventCountersOrdered(p, start, pages[0].events);
      CountersOrdered(p, RunEvents(p, start, pages[0].events), pages[1..]);
    }
  }

  /** A page's run that stopped early is unchanged by any events after it. */
  lemma {:induction false} StoppedEventsIgnoreRest(p: Params, acc: Acc, events: seq<Event>, more: seq<Event>)
    requires RunEvents(p, acc, events).processed < acc.processed + |events|
    ensures RunEvents(p, acc, events + more) == RunEvents(p, acc, events)
    ensures RunEvents(p, acc, events).decay <= p.decayThreshold
    decreases |events|
  {
    assert (events + more)[0] == events[0];
    assert (events + more)[1..] == events[1..] + more;
    var a := EventStep(p, acc, events[0]);
    if !(Included(p, acc.userInfo, events[0]) && a.decay <= p.decayThreshold) {
      StoppedEventsIgnoreRest(p, a, events[1..], more);
    }
  }

  /** A run that ends with the decay still above the threshold has processed every event. */
  lemma {:induction false} OpenEventsProcessAll(p: Params, acc: Acc, events: seq<Event>)
    requires RunEvents(p, acc, events).decay > p.decayThreshold
    ensures RunEvents(p, acc, events).processed == acc.processed + |events|
    decreases |events|
  {
    if events != [] {
      var a := EventStep(p, acc, events[0]);
      if !(Included(p, acc.userInfo, events[0]) && a.decay <= p.decayThreshold) {
        OpenEventsProcessAll(p, a, events[1..]);
      }
    }
  }

  /**
   * Early stop: once a run over some pages has exhausted the decay, later
   * pages change nothing; and a run that has not exhausted it has
   * processed every event loaded.
   */
  lemma {:induction false} StoppedPagesIgnoreRest(p: Params, acc: Acc, pages: seq<Page>, more: seq<Page>)
    requires pages != []
    requires RunPages(p, acc, pages).decay <= p.decayThreshold
    ensures RunPages(p, acc, pages + more) == RunPages(p, acc, pages)
    decreases |pages|
  {
    assert (pages + more)[0] == pages[0];
    assert (pages + more)[1..] == pages[1..] + more;
    var a := RunEvents(p, acc.(userInfo := AddUsers(acc.userInfo, pages[0].users)), pages[0].events);
    if a.decay > p.decayThreshold {
      StoppedPagesIgnoreRest(p, a, pages[1..], more);
    }
  }

  lemma {:induction false} OpenPagesProcessAll(p: Params, acc: Acc, pages: seq<Page>)
    requires RunPages(p, acc, pages).decay > p.decayThreshold
    ensures RunPages(p, acc, pages).processed == acc.processed + TotalEvents(pages)
    decreases |pages|
  {
    if pages != [] {
      var start := acc.(userInfo := AddUsers(acc.userInfo, pages[0].users));
      var a := RunEvents(p, start, pages[0].events);
      OpenEventsProcessAll(p, start, pages[0].events);
      OpenPagesProcessAll(p, a, pages[1..]);
    }
  }

  // ---------------------------------------------------------------------
  // Requesting more pages (lines 279-286)

  function Last<T>(s: seq<T>): T
    requires s != []
  {
    s[|s| - 1]
  }

  /** The size handed to `setSize`, if any: one more page when the decay lasts and the last page was full. */
  function RequestMore(p: Params, decay: real, pages: seq<Page>): (r: Option<nat>)
    ensures r.Some? <==> decay > p.decayThreshold && pages != [] && |Last(pages).events| == Last(pages).limit
    ensures r.Some? ==> r.value == |pages| + 1
  {
    if decay > p.decayThreshold && pages != [] && |Last(pages).events| == Last(pages).limit
    then Some(|pages| + 1) else None
  }

  // ---------------------------------------------------------------------
  // The link stage (lines 288-301)

  datatype LinkOut = LinkOut(source: string, target: string, weight: real)

  function RealMin(a: real, b: real): real {
    if a < b then a else b
  }

  /** Line 294: heavy enough itself, and both ends heavy enough. */
  predicate Keep(l: LinkOut, nodes: map<string, real>, linkThreshold: real, nodeThreshold: real) {
    l.weight >= linkThreshold && RealMin(Get0(nodes, l.source), Get0(nodes, l.target)) >= nodeThreshold
  }

  function LinkOf(key: string, weight: real): LinkOut
    requires ':' in key
  {
    LinkOut(LinkEnds(key).0, LinkEnds(key).1, weight)
  }

  /** Every link total as an output link, its ends read from its key. */
  function LinkOuts(links: map<string, real>): map<string, LinkOut>
    requires forall k :: k in links ==> ':' in k
  {
    map k | k in links :: LinkOf(k, links[k])
  }

  /** The kept links among the keys of `done`. */
  function KeptAmong(outs: map<string, LinkOut>, nodes: map<string, real>, linkThreshold: real, nodeThreshold: real,
                     done: set<string>): map<string, LinkOut>
  {
    map k | k in outs && k in done && Keep(outs[k], nodes, linkThreshold, nodeThreshold) :: outs[k]
  }

  /** The output links, by key. */
  function KeptLinks(links: map<string, real>, nodes: map<string, real>, linkThreshold: real, nodeThreshold: real)
    : map<string, LinkOut>
    requires forall k :: k in links ==> ':' in k
  {
    KeptAmong(LinkOuts(links), nodes, linkThreshold, nodeThreshold, links.Keys)
  }

  /** The output links are exactly the links that pass both thresholds, with their ends read from the key. */
  lemma KeptLinksMeetThresholds(links: map<string, real>, nodes: map<string, real>, linkThreshold: real, nodeThreshold: real)
    requires forall k :: k in links ==> ':' in k
    ensures var r := KeptLinks(links, nodes, linkThreshold, nodeThreshold);
            && (forall k :: k in r <==> k in links && Keep(LinkOf(k, links[k]), nodes, linkThreshold, nodeThreshold))
            && (forall k :: k in r ==>
                  && r[k] == LinkOf(k, links[k])
                  && r[k].weight == links[k] && r[k].weight >= linkThreshold
                  && Get0(nodes, r[k].source) >= nodeThreshold
                  && Get0(nodes, r[k].target) >= nodeThreshold)
  {
  }

  function Endpoints(kept: map<string, LinkOut>): set<string> {
    (set k | k in kept :: kept[k].source) + (set k | k in kept :: kept[k].target)
  }

  /** The other ends of the kept links at `x`. */
  function Neighbours(kept: map<string, LinkOut>, x: string): set<string> {
    (set k | k in kept && kept[k].source == x :: kept[k].target) +
    (set k | k in kept && kept[k].target == x :: kept[k].source)
  }

  /** The `siblings` map the link stage builds. */
  function SiblingMap(kept: map<string, LinkOut>): map<string, set<string>> {
    map x | x in Endpoints(kept) :: Neighbours(kept, x)
  }

  function SiblingsOf(siblings: map<string, set<string>>, x: string): set<string> {
    if x in siblings then siblings[x] else {}
  }

  /** `siblings.set(x, (siblings.get(x) ?? new Set()).add(y))` */
  function AddSibling(siblings: map<string, set<string>>, x: string, y: string): map<string, set<string>> {
    siblings[x := SiblingsOf(siblings, x) + {y}]
  }

  lemma SiblingsOfMap(kept: map<string, LinkOut>, x: string)
    ensures SiblingsOf(SiblingMap(kept), x) == Neighbours(kept, x)
  {
    if Neighbours(kept, x) != {} {
      var y :| y in Neighbours(kept, x);
      var k :| k in kept && ((kept[k].source == x && kept[k].target == y) || (kept[k].target == x && kept[k].source == y));
      assert x in (set k | k in kept :: kept[k].source) || x in (set k | k in kept :: kept[k].target);
    }
  }

  lemma NeighboursAdd(kept: map<string, LinkOut>, key: string, l: LinkOut, x: string)
    requires key !in kept
    ensures Neighbours(kept[key := l], x) ==
              Neighbours(kept, x) + (if l.source == x then {l.target} else {}) + (if l.target == x then {l.source} else {})
  {
    var k2 := kept[key := l];
    var lhs := Neighbours(k2, x);
    var rhs := Neighbours(kept, x) + (if l.source == x then {l.target} else {}) + (if l.target == x then {l.source} else {});
    forall y | y in lhs ensures y in rhs {
      var k :| k in k2 && ((k2[k].source == x && k2[k].target == y) || (k2[k].target == x && k2[k].source == y));
      if k != key {
        assert k in kept && kept[k] == k2[k];
      }
    }
    forall y | y in rhs ensures y in lhs {
      if y in Neighbours(kept, x) {
        var k :| k in kept && ((kept[k].source == x && kept[k].target == y) || (kept[k].target == x && kept[k].source == y));
        assert k in k2 && k2[k] == kept[k];
      } else {
        assert k2[key] == l;
      }
    }
  }

  lemma EndpointsAdd(kept: map<string, LinkOut>, key: string, l: LinkOut)
    requires key !in kept
    ensures Endpoints(kept[key := l]) == Endpoints(kept) + {l.source, l.target}
  {
    var k2 := kept[key := l];
    forall x | x in Endpoints(k2) ensures x in Endpoints(kept) + {l.source, l.target} {
      var k :| k in k2 && (k2[k].source == x || k2[k].target == x);
      if k != key {
        assert kept[k] == k2[k];
        assert x in (set k | k in kept :: kept[k].source) || x in (set k | k in kept :: kept[k].target);
      }
    }
    forall x | x in Endpoints(kept) ensures x in Endpoints(k2) {
      var k :| k in kept && (kept[k].source == x || kept[k].target == x);
      assert k2[k] == kept[k];
      assert x in (set k | k in k2 :: k2[k].source) || x in (set k | k in k2 :: k2[k].target);
    }
    assert key in k2 && k2[key] == l;
    assert l.source in (set k | k in k2 :: k2[k].source);
    assert l.target in (set k | k in k2 :: k2[k].target);
  }

  lemma SiblingsOfAdd(siblings: map<string, set<string>>, a: string, b: string, x: string)
    ensures SiblingsOf(AddSibling(siblings, a, b), x) == SiblingsOf(siblings, x) + (if x == a then {b} else {})
  {
  }

  /** Adding one kept link adds each end to the other's siblings, as lines 297-298 do. */
  lemma SiblingMapAdd(kept: map<string, LinkOut>, key: string, l: LinkOut)
    requires key !in kept
    ensures SiblingMap(kept[key := l]) == AddSibling(AddSibling(SiblingMap(kept), l.source, l.target), l.target, l.source)
  {
    var lhs := SiblingMap(kept[key := l]);
    var half := AddSibling(SiblingMap(kept), l.source, l.target);
    var rhs := AddSibling(half, l.target, l.source);
    EndpointsAdd(kept, key, l);
    assert lhs.Keys == rhs.Keys;
    forall x | x in lhs ensures lhs[x] == rhs[x] {
      assert lhs[x] == Neighbours(kept[key := l], x);
      NeighboursAdd(kept, key, l, x);
      SiblingsOfMap(kept, x);
      SiblingsOfAdd(SiblingMap(kept), l.source, l.target, x);
      SiblingsOfAdd(half, l.target, l.source, x);
      assert rhs[x] == SiblingsOf(rhs, x);
    }
  }

  lemma KeptAmongNone(outs: map<string, LinkOut>, nodes: map<string, real>, linkThreshold: real, nodeThreshold: real)
    ensures KeptAmong(outs, nodes, linkThreshold, nodeThreshold, {}) == map[]
  {
  }

  /** Taking a kept link's key into account adds that link. */
  lemma KeptAmongKeep(outs: map<string, LinkOut>, nodes: map<string, real>, linkThreshold: real, nodeThreshold: real,
                      done: set<string>, k: string)
    requires k in outs && k !in done
    requires Keep(outs[k], nodes, linkThreshold, nodeThreshold)
    ensures k !in KeptAmong(outs, nodes, linkThreshold, nodeThreshold, done)
    ensures KeptAmong(outs, nodes, linkThreshold, nodeThreshold, done + {k}) ==
              KeptAmong(outs, nodes, linkThreshold, nodeThreshold, done)[k := outs[k]]
  {
    var a := KeptAmong(outs, nodes, linkThreshold, nodeThreshold, done);
    var b := KeptAmong(outs, nodes, linkThreshold, nodeThreshold, done + {k});
    assert b.Keys == a.Keys + {k};
  }

  /** Taking a dropped link's key into account changes nothing. */
  lemma KeptAmongSkip(outs: map<string, LinkOut>, nodes: map<string, real>, linkThreshold: real, nodeThreshold: real,
                      done: set<string>, k: string)
    requires k in outs
    requires !Keep(outs[k], nodes, linkThreshold, nodeThreshold)
    ensures KeptAmong(outs, nodes, linkThreshold, nodeThreshold, done + {k}) ==
              KeptAmong(outs, nodes, linkThreshold, nodeThreshold, done)
  {
    var a := KeptAmong(outs, nodes, linkThreshold, nodeThreshold, done);
    var b := KeptAmong(outs, nodes, linkThreshold, nodeThreshold, done + {k});
    assert b.Keys == a.Keys;
  }

  /** Lines 291-299 for one link total: keep it and record its ends as siblings, or drop it. */
  method ConsiderLink(links: map<string, real>, nodes: map<string, real>, linkThreshold: real, nodeThreshold: real,
                      kept: map<string, LinkOut>, siblings: map<string, set<string>>, ghost done: set<string>, k: string)
    returns (kept': map<string, LinkOut>, siblings': map<string, set<string>>)
    requires forall k :: k in links ==> ':' in k
    requires k in links && k !in done
    requires kept == KeptAmong(LinkOuts(links), nodes, linkThreshold, nodeThreshold, done)
    requires siblings == SiblingMap(kept)
    ensures kept' == KeptAmong(LinkOuts(links), nodes, linkThreshold, nodeThreshold, done + {k})
    ensures siblings' == SiblingMap(kept')
  {
    ghost var outs := LinkOuts(links);
    var link := LinkOf(k, links[k]);
    assert link == outs[k];
    if Keep(link, nodes, linkThreshold, nodeThreshold) {
      KeptAmongKeep(outs, nodes, linkThreshold, nodeThreshold, done, k);
      SiblingMapAdd(kept, k, link);
      kept' := kept[k := link];
      siblings' := AddSibling(AddSibling(siblings, link.source, link.target), link.target, link.source);
    } else {
      KeptAmongSkip(outs, nodes, linkThreshold, nodeThreshold, done, k);
      kept', siblings' := kept, siblings;
    }
  }

  /** Lines 290-301 as a loop over the link totals. */
  method LinkStage(links: map<string, real>, nodes: map<string, real>, linkThreshold: real, nodeThreshold: real)
    returns (kept: map<string, LinkOut>, siblings: map<string, set<string>>)
    requires forall k :: k in links ==> ':' in k
    ensures kept == KeptLinks(links, nodes, linkThreshold, nodeThreshold)
    ensures siblings == SiblingMap(kept)
  {
    kept, siblings := map[], map[];
    var todo := links.Keys;
    ghost var done: set<string> := {};
    ghost var outs := LinkOuts(links);
    KeptAmongNone(outs, nodes, linkThreshold, nodeThreshold);
    while todo != {}
      invariant todo <= links.Keys && done == links.Keys - todo
      invariant kept == KeptAmong(outs, nodes, linkThreshold, nodeThreshold, done)
      invariant siblings == SiblingMap(kept)
      decreases |todo|
    {
      var k :| k in todo;
      kept, siblings := ConsiderLink(links, nodes, linkThreshold, nodeThreshold, kept, siblings, done, k);
      todo := todo - {k};
      done := done + {k};
    }
    assert done == links.Keys;
  }

  /** Sibling sets are symmetric: `t` is a sibling of `s` exactly when `s` is a sibling of `t`. */
  lemma SiblingsSymmetric(kept: map<string, LinkOut>, s: string, t: string)
    ensures t in SiblingsOf(SiblingMap(kept), s) <==> s in SiblingsOf(SiblingMap(kept), t)
  {
    SiblingsOfMap(kept, s);
    SiblingsOfMap(kept, t);
    if t in Neighbours(kept, s) {
      var k :| k in kept && ((kept[k].source == s && kept[k].target == t) || (kept[k].target == s && kept[k].source == t));
      assert s in Neighbours(kept, t);
    }
    if s in Neighbours(kept, t) {
      var k :| k in kept && ((kept[k].source == t && kept[k].target == s) || (kept[k].target == t && kept[k].source == s));
      assert t in Neighbours(kept, s);
    }
  }

  // ---------------------------------------------------------------------
  // The node stage (lines 303-311) and transparency (line 80)

  datatype NodeOut = NodeOut(id: string, weight: real, siblings: set<string>, imageUrl: Option<string>, name: string)

  /** The output nodes: heavy enough, and with at least one sibling. */
  function NodeStage(nodes: map<string, real>, siblings: map<string, set<string>>, info: map<string, Member>,
                     nodeThreshold: real): (r: map<string, NodeOut>)
    ensures forall id :: id in r <==> id in nodes && nodes[id] >= nodeThreshold && SiblingsOf(siblings, id) != {}
    ensures forall id :: id in r ==>
              && r[id].id == id && r[id].weight == nodes[id] && r[id].weight >= nodeThreshold
              && r[id].siblings == SiblingsOf(siblings, id) && r[id].siblings != {}
              && r[id].imageUrl == (if id in info then Some(info[id].avatar) else None)
              && r[id].name == (if id in info then info[id].nickname else id)
  {
    map id | id in nodes && nodes[id] >= nodeThreshold && SiblingsOf(siblings, id) != {} ::
      NodeOut(id, nodes[id], SiblingsOf(siblings, id),
              if id in info then Some(info[id].avatar) else None,
              if id in info then info[id].nickname else id)
  }

  /** Line 80: drawn faded when another node is selected that is not among its siblings. */
  predicate Transparent(selected: Option<string>, node: NodeOut) {
    selected.Some? && selected.value != node.id && selected.value !in node.siblings
  }

  /** Between two output nodes, fading is mutual: selecting either fades the other alike. */
  lemma TransparencyMutual(nodes: map<string, real>, kept: map<string, LinkOut>, info: map<string, Member>,
                           nodeThreshold: real, a: string, b: string)
    requires a in NodeStage(nodes, SiblingMap(kept), info, nodeThreshold)
    requires b in NodeStage(nodes, SiblingMap(kept), info, nodeThreshold)
    ensures var out := NodeStage(nodes, SiblingMap(kept), info, nodeThreshold);
            Transparent(Some(a), out[b]) <==> Transparent(Some(b), out[a])
  {
    SiblingsSymmetric(kept, a, b);
  }

  /** Under a selection, an output node stays opaque exactly when it is the selection or shares a kept link with it. */
  lemma OpaqueExactlyNearSelection(nodes: map<string, real>, kept: map<string, LinkOut>, info: map<string, Member>,
                                   nodeThreshold: real, selected: string, x: string)
    requires x in NodeStage(nodes, SiblingMap(kept), info, nodeThreshold)
    ensures var out := NodeStage(nodes, SiblingMap(kept), info, nodeThreshold);
            !Transparent(Some(selected), out[x]) <==>
              (|| x == selected
               || exists k :: k in kept && ((kept[k].source == x && kept[k].target == selected) ||
                                            (kept[k].source == selected && kept[k].target == x)))
  {
    SiblingsOfMap(kept, x);
    if exists k :: k in kept && ((kept[k].source == x && kept[k].target == selected) ||
                                 (kept[k].source == selected && kept[k].target == x)) {
      var k :| k in kept && ((kept[k].source == x && kept[k].target == selected) ||
                             (kept[k].source == selected && kept[k].target == x));
      assert selected in Neighbours(kept, x);
    }
  }

  // ---------------------------------------------------------------------
  // The whole computation (lines 197-327)

  datatype Stats = Stats(nodeCount: nat, oldestEvent: Option<string>, newestEvent: Option<string>,
                         eventsLoaded: nat, eventsProcessed: nat, eventsIncluded: nat)

  datatype GraphData = GraphData(nodes: map<string, NodeOut>, links: map<string, LinkOut>, stats: Stats,
                                 requestSize: Option<nat>)

  /** Lines 230-266: the loop over one page's events, from the state `start`. */
  method FoldEvents(p: Params, start: Acc, events: seq<Event>) returns (r: Acc)
    requires forall k :: k in start.links ==> ':' in k
    ensures r == RunEvents(p, start, events)
  {
    var userInfo, nodes, links, decay := start.userInfo, start.nodes, start.links, start.decay;
    var eventsProcessed, eventsIncluded, oldest, newest := start.processed, start.included, start.oldest, start.newest;
    for j := 0 to |events|
      invariant RunEvents(p, Acc(userInfo, nodes, links, decay, eventsProcessed, eventsIncluded, oldest, newest),
                          events[j..]) == RunEvents(p, start, events)
      invariant forall k :: k in links ==> ':' in k
      invariant userInfo == start.userInfo
    {
      var event := events[j];
      ghost var cur := Acc(userInfo, nodes, links, decay, eventsProcessed, eventsIncluded, oldest, newest);
      RunEventsAt(p, cur, events, j);
      eventsProcessed := eventsProcessed + 1;
      oldest := Some(event.timestamp);
      if newest.None? {
        newest := oldest;
      }
      ghost var seen := Acc(userInfo, nodes, links, decay, eventsProcessed, eventsIncluded, oldest, newest);
      assert !Included(p, cur.userInfo, event) ==> seen == EventStep(p, cur, event);
      var eventType := WeightKey(event.reason);
      if eventType.None? {
        continue;
      }
      var eventWeight := EventWeight(p, eventType.value);
      if eventWeight <= 0.0 {
        continue;
      }
      var weight := Scale(eventWeight, decay);
      if p.excludeBots && (IsBot(userInfo, event.source) || IsBot(userInfo, event.target)) {
        continue;
      }
      assert Included(p, cur.userInfo, event) && weight == Contribution(p, cur, event);
      EventStepIncluded(p, cur, event);
      nodes := AddWeight(nodes, event.source, weight);
      nodes := AddWeight(nodes, event.target, weight);
      var key := LinkKey(event.source, event.target);
      links := AddWeight(links, key, weight);
      decay := Spend(decay, weight, p.decayAmount);
      eventsIncluded := eventsIncluded + 1;
      SameAcc(Acc(userInfo, nodes, links, decay, eventsProcessed, eventsIncluded, oldest, newest),
              EventStep(p, cur, event));
      if decay <= p.decayThreshold {
        break;
      }
    }
    r := Acc(userInfo, nodes, links, decay, eventsProcessed, eventsIncluded, oldest, newest);
  }

  /** Lines 212-272: the loop over the pages, each adding its members and then folding its events. */
  method FoldPages(p: Params, pages: seq<Page>) returns (r: Acc)
    ensures r == RunPages(p, Start, pages)
  {
    var userInfo: map<string, Member> := map[];
    var nodes: map<string, real> := map[];
    var links: map<string, real> := map[];
    var decay := 1.0;
    var oldest: Option<string> := None;
    var newest: Option<string> := None;
    var eventsProcessed := 0;
    var eventsIncluded := 0;
    ghost var final := RunPages(p, Start, pages);

    for i := 0 to |pages|
      invariant RunPages(p, Acc(userInfo, nodes, links, decay, eventsProcessed, eventsIncluded, oldest, newest),
                         pages[i..]) == final
      invariant forall k :: k in links ==> ':' in k
    {
      var page := pages[i];
      ghost var before := Acc(userInfo, nodes, links, decay, eventsProcessed, eventsIncluded, oldest, newest);
      for u := 0 to |page.users|
        invariant AddUsers(userInfo, page.users[u..]) == AddUsers(before.userInfo, page.users)
      {
        assert page.users[u..][1..] == page.users[u + 1..];
        userInfo := userInfo[page.users[u].id := page.users[u]];
      }
      var a := FoldEvents(p, Acc(userInfo, nodes, links, decay, eventsProcessed, eventsIncluded, oldest, newest),
                          page.events);
      userInfo, nodes, links, decay := a.userInfo, a.nodes, a.links, a.decay;
      eventsProcessed, eventsIncluded, oldest, newest := a.processed, a.included, a.oldest, a.newest;
      assert pages[i..][1..] == pages[i + 1..];
      if decay <= p.decayThreshold {
        break;
      }
    }

    r := Acc(userInfo, nodes, links, decay, eventsProcessed, eventsIncluded, oldest, newest);
  }

  method ComputeGraphData(config: Config, pages: seq<Page>) returns (g: GraphData)
    ensures var p := Resolve(config);
            var r := RunPages(p, Start, pages);
            && g.links == KeptLinks(r.links, r.nodes, p.linkThreshold, p.nodeThreshold)
            && g.nodes == NodeStage(r.nodes, SiblingMap(g.links), r.userInfo, p.nodeThreshold)
            && g.stats == Stats(|g.nodes|, r.oldest, r.newest, TotalEvents(pages), r.processed, r.included)
            && g.requestSize == RequestMore(p, r.decay, pages)
    ensures g.stats.eventsIncluded <= g.stats.eventsProcessed <= g.stats.eventsLoaded
    ensures g.requestSize.Some? ==> g.stats.eventsProcessed == g.stats.eventsLoaded
  {
    var p := Resolve(config);
    var eventsLoaded := TotalEvents(pages);
    var r := FoldPages(p, pages);
    var requestSize := RequestMore(p, r.decay, pages);
    var kept, siblings := LinkStage(r.links, r.nodes, p.linkThreshold, p.nodeThreshold);
    var nodesOut := NodeStage(r.nodes, siblings, r.userInfo, p.nodeThreshold);
    g := GraphData(nodesOut, kept, Stats(|nodesOut|, r.oldest, r.newest, eventsLoaded, r.processed, r.included),
                   requestSize);
    CountersOrdered(p, Start, pages);
    if requestSize.Some? {
      OpenPagesProcessAll(p, Start, pages);
    }
  }

  // ---------------------------------------------------------------------
  // The paging key (lines 34-49)

  /** The URL of the next page to load, or none after a short page. */
  function GetKey(id: string, previous: Option<Page>): (r: Option<string>)
    ensures r.None? <==> previous.Some? && |previous.value.events| < previous.value.limit
    ensures r.Some? ==> StartsWith(r.value, "/api/server/" + id + "?limit=1000")
    ensures r.Some? && previous.Some? && previous.value.events != [] ==>
              r.value == "/api/server/" + id + "?limit=1000&before=" + Last(previous.value.events).timestamp
    ensures r.Some? && (previous.None? || previous.value.events == []) ==>
              r.value == "/api/server/" + id + "?limit=1000"
  {
    if previous.Some? && |previous.value.events| < previous.value.limit then None
    else
      var base := "/api/server/" + id + "?limit=1000";
      var url := if previous.Some? && previous.value.events != []
                 then base + "&before=" + Last(previous.value.events).timestamp
                 else base;
      assert url[..|base|] == base;
      Some(url)
  }

  /** When the graph asks for one more page, the paging key does produce one after the last page. */
  lemma MoreRequestedMeansMoreKeyed(p: Params, decay: real, pages: seq<Page>, id: string)
    requires RequestMore(p, decay, pages).Some?
    ensures GetKey(id, Some(Last(pages))).Some?
    ensures Last(pages).events != [] ==>
              GetKey(id, Some(Last(pages))).value ==
                "/api/server/" + id + "?limit=1000&before=" + Last(Last(pages).events).timestamp
  {
  }
}
