/**
 The channel list: which services become channels, how they are labelled and numbered, and
 the order they are shown in.
 */
module Channels {
  import opened Common
  import Decimal

  const MIN_REMOTE_KEY: nat := 1
  const MAX_REMOTE_KEY: nat := 12
  const TELEVISION: nat := 1

  /** In order of broadcast priority. */
  datatype Band = Terrestrial | Bs | Cs | Sky | Other

  datatype BroadcastService = BroadcastService(networkId: nat, serviceId: nat)

  datatype PhysicalChannel = PhysicalChannel(networkId: nat, band: Band, channel: string)

  datatype Channel = Channel(
    id: nat,
    name: string,
    title: string,
    band: Band,
    hasLogo: bool,
    remoteKey: Option<nat>,
    broadcast: Option<BroadcastService>,
    physical: Option<PhysicalChannel>,
    number: Option<nat>,
    serviceId: Option<nat>)

  /** A service as the server lists it. */
  datatype Service = Service(
    id: nat,
    name: string,
    kind: nat,
    serviceId: Option<nat>,
    networkId: Option<nat>,
    remoteKey: Option<nat>,
    hasLogo: bool,
    channel: Option<string>,
    band: Band)

  // ---------- from services to channels ----------

  /** The characters Unicode counts as white space. */
  predicate IsWhiteSpace(c: char) {
    var n := c as int;
    || 0x09 <= n <= 0x0D || n == 0x20 || n == 0x85 || n == 0xA0 || n == 0x1680
    || 0x2000 <= n <= 0x200A || n == 0x2028 || n == 0x2029 || n == 0x202F || n == 0x205F || n == 0x3000
  }

  predicate IsBlank(s: string) {
    forall i :: 0 <= i < |s| ==> IsWhiteSpace(s[i])
  }

  predicate Shown(s: Service) {
    s.kind == TELEVISION && s.id != 0 && !IsBlank(s.name)
  }

  function NonZero(n: Option<nat>): Option<nat> {
    if n == Some(0) then None else n
  }

  function Padded(n: nat, width: nat): string {
    var digits := Decimal.Print(n);
    if |digits| < width then seq(width - |digits|, _ => '0') + digits else digits
  }

  function NumberOf(s: Service): Option<nat> {
    NonZero(if s.band.Terrestrial? then s.remoteKey else s.serviceId)
  }

  function LabelOf(s: Service): string {
    match NumberOf(s)
    case Some(n) => Padded(n, if s.band.Terrestrial? then 2 else 3) + "   " + s.name
    case None => "--   " + s.name
  }

  function ToChannel(s: Service): Channel {
    Channel(
      s.id, s.name, LabelOf(s), s.band, s.hasLogo,
      if s.remoteKey.Some? && MIN_REMOTE_KEY <= s.remoteKey.value <= MAX_REMOTE_KEY then s.remoteKey else None,
      if s.networkId.Some? && s.serviceId.Some?
        then Some(BroadcastService(s.networkId.value, s.serviceId.value)) else None,
      if s.networkId.Some? && s.channel.Some? && !IsBlank(s.channel.value)
        then Some(PhysicalChannel(s.networkId.value, s.band, s.channel.value)) else None,
      NumberOf(s),
      s.serviceId)
  }

  // ---------- what a channel shows ----------

  lemma PaddedDigits(n: nat, width: nat)
    ensures
      var digits := Padded(n, width);
      && Decimal.AllDigits(digits) && Decimal.Value(digits) == n && width <= |digits|
      && exists k: nat :: digits == Decimal.Zeros(k) + Decimal.Print(n) && (0 < k ==> |digits| == width)
  {
    var printed := Decimal.Print(n);
    var k := if |printed| < width then width - |printed| else 0;
    assert Padded(n, width) == Decimal.Zeros(k) + printed;
    Decimal.ValueOfZeros(k, printed);
    Decimal.ValueOfPrint(n);
  }

  /** The number a viewer knows a service by: the remote key of a terrestrial one and the service
      number of any other, zero being none. */
  lemma NumberExactly(s: Service, n: nat)
    ensures NumberOf(s) == Some(n) <==>
      0 < n && (s.band.Terrestrial? ==> s.remoteKey == Some(n)) && (!s.band.Terrestrial? ==> s.serviceId == Some(n))
  {
  }

  /** A label is that number with at least two digits, or three, or else dashes, before the name. */
  lemma LabelExactly(s: Service) returns (digits: string)
    ensures LabelOf(s) == digits + "   " + s.name
    ensures
      match NumberOf(s)
      case None => digits == "--"
      case Some(n) =>
        && Decimal.AllDigits(digits) && Decimal.Value(digits) == n
        && (if s.band.Terrestrial? then 2 else 3) <= |digits|
        && exists k: nat :: digits == Decimal.Zeros(k) + Decimal.Print(n)
             && (0 < k ==> |digits| == if s.band.Terrestrial? then 2 else 3)
  {
    digits := "--";
    if NumberOf(s).Some? {
      digits := Padded(NumberOf(s).value, if s.band.Terrestrial? then 2 else 3);
      PaddedDigits(NumberOf(s).value, if s.band.Terrestrial? then 2 else 3);
    } else {
      assert LabelOf(s) == "--" + "   " + s.name;
    }
  }

  /** A channel carries on what its service says, except a remote key that is not on a remote
      control and a physical channel without a name. */
  lemma ChannelExactly(s: Service, key: nat, network: nat, number: nat, name: string)
    ensures
      var c := ToChannel(s);
      && c.id == s.id && c.name == s.name && c.title == LabelOf(s) && c.band == s.band && c.hasLogo == s.hasLogo
      && c.number == NumberOf(s) && c.serviceId == s.serviceId
      && (c.remoteKey == Some(key) <==> s.remoteKey == Some(key) && 1 <= key <= 12)
      && (c.broadcast == Some(BroadcastService(network, number)) <==>
            s.networkId == Some(network) && s.serviceId == Some(number))
      && (c.physical == Some(PhysicalChannel(network, s.band, name)) <==>
            s.networkId == Some(network) && s.channel == Some(name) && exists i :: 0 <= i < |name| && !IsWhiteSpace(name[i]))
      && (c.physical.Some? ==> c.physical.value.band == s.band)
  {
  }

  // ---------- the order ----------

  function CompareInt(a: int, b: int): int {
    if a < b then -1 else if b < a then 1 else 0
  }

  /** Missing before present. */
  function Rank(n: Option<nat>): int {
    if n.Some? then n.value else -1
  }

  /** By code points, which is also the order of the UTF-8 bytes. */
  function CompareText(a: string, b: string): int
    decreases |a|
  {
    if a == [] || b == [] then CompareInt(|a|, |b|)
    else if a[0] != b[0] then CompareInt(a[0] as int, b[0] as int)
    else CompareText(a[1..], b[1..])
  }

  function First(c: int, otherwise: int): int {
    if c != 0 then c else otherwise
  }

  function BandRank(b: Band): int {
    match b
    case Terrestrial => 0
    case Bs => 1
    case Cs => 2
    case Sky => 3
    case Other => 4
  }

  /** Six parts in turn: band, numbered first, number, label, service, and the id for the
      rest. */
  function Compare(a: Channel, b: Channel): int {
    First(CompareInt(BandRank(a.band), BandRank(b.band)),
    First(CompareInt(if a.number.None? then 1 else 0, if b.number.None? then 1 else 0),
    First(CompareInt(Rank(a.number), Rank(b.number)),
    First(CompareText(a.title, b.title),
    First(CompareInt(Rank(a.serviceId), Rank(b.serviceId)),
          CompareInt(a.id, b.id))))))
  }

  /** The texts first differ at place i, where a has the smaller character. */
  ghost predicate SmallerAt(a: string, b: string, i: nat) {
    i < |a| && i < |b| && a[i] < b[i] && forall j :: 0 <= j < i ==> a[j] == b[j]
  }

  /** Text a stands before b: b carries on after a, or has the greater character where they
      first differ. */
  ghost predicate TextBefore(a: string, b: string) {
    (a != b && a <= b) || exists i: nat :: SmallerAt(a, b, i)
  }

  lemma TextBeforeTails(a: string, b: string)
    requires a != [] && b != [] && a[0] == b[0]
    ensures TextBefore(a, b) <==> TextBefore(a[1..], b[1..])
  {
    assert a == [a[0]] + a[1..] && b == [b[0]] + b[1..];
    forall i: nat | SmallerAt(a, b, i) ensures SmallerAt(a[1..], b[1..], i - 1) {
    }
    forall i: nat | SmallerAt(a[1..], b[1..], i) ensures SmallerAt(a, b, i + 1) {
    }
  }

  lemma TextBeforeHeads(a: string, b: string)
    requires a != [] && b != [] && a[0] != b[0]
    ensures TextBefore(a, b) <==> a[0] < b[0]
  {
    if a[0] < b[0] {
      assert SmallerAt(a, b, 0);
    }
  }

  lemma {:induction false} TextExactly(a: string, b: string)
    ensures CompareText(a, b) < 0 <==> TextBefore(a, b)
    decreases |a|
  {
    if a != [] && b != [] {
      if a[0] == b[0] {
        TextBeforeTails(a, b);
        TextExactly(a[1..], b[1..]);
      } else {
        TextBeforeHeads(a, b);
      }
    }
  }

  predicate BandBefore(a: Band, b: Band) {
    match a
    case Terrestrial => !b.Terrestrial?
    case Bs => b.Cs? || b.Sky? || b.Other?
    case Cs => b.Sky? || b.Other?
    case Sky => b.Other?
    case Other => false
  }

  /** Missing before present, and small before great. */
  predicate ServiceBefore(a: Option<nat>, b: Option<nat>) {
    b.Some? && (a.None? || a.value < b.value)
  }

  /** One channel stands before another by its band, then numbered ones first, by number, then by
      label, then by service, and at last by id. */
  ghost predicate Before(a: Channel, b: Channel) {
    if a.band != b.band then BandBefore(a.band, b.band)
    else if a.number != b.number then
      a.number.Some? && (b.number.None? || a.number.value < b.number.value)
    else if a.title != b.title then TextBefore(a.title, b.title)
    else if a.serviceId != b.serviceId then ServiceBefore(a.serviceId, b.serviceId)
    else a.id < b.id
  }

  /** The comparison is exactly that order. */
  lemma OrderExactly(a: Channel, b: Channel)
    ensures Compare(a, b) < 0 <==> Before(a, b)
  {
    TextExactly(a.title, b.title);
    TextOrder(a.title, b.title);
  }

  lemma {:induction false} TextOrder(a: string, b: string)
    ensures CompareText(a, b) == -CompareText(b, a)
    ensures CompareText(a, b) == 0 <==> a == b
    decreases |a|
  {
    if a != [] && b != [] && a[0] == b[0] {
      TextOrder(a[1..], b[1..]);
      assert a == [a[0]] + a[1..] && b == [b[0]] + b[1..];
    }
  }

  lemma {:induction false} TextTransitive(a: string, b: string, c: string)
    requires CompareText(a, b) <= 0 && CompareText(b, c) <= 0
    ensures CompareText(a, c) <= 0
    ensures CompareText(a, b) < 0 || CompareText(b, c) < 0 ==> CompareText(a, c) < 0
    decreases |a|
  {
    if a != [] && b != [] && c != [] && a[0] == b[0] == c[0] {
      TextTransitive(a[1..], b[1..], c[1..]);
    }
  }

  /** Channels with different ids are never level, and exactly one comes first. */
  lemma OrderTotal(a: Channel, b: Channel)
    ensures Compare(a, b) == -Compare(b, a)
    ensures Compare(a, b) == 0 ==> a.id == b.id
    ensures Compare(a, a) == 0
  {
    TextOrder(a.title, b.title);
    TextOrder(a.title, a.title);
  }

  lemma OrderTransitive(a: Channel, b: Channel, c: Channel)
    requires Compare(a, b) <= 0 && Compare(b, c) <= 0
    ensures Compare(a, c) <= 0
  {
    TextOrder(a.title, b.title);
    TextOrder(b.title, c.title);
    TextOrder(a.title, c.title);
    if CompareText(a.title, b.title) <= 0 && CompareText(b.title, c.title) <= 0 {
      TextTransitive(a.title, b.title, c.title);
    }
  }

  ghost predicate Sorted(s: seq<Channel>) {
    forall i, j :: 0 <= i < j < |s| ==> Compare(s[i], s[j]) <= 0
  }

  ghost predicate DistinctIds(s: seq<Channel>) {
    forall i, j :: 0 <= i < j < |s| ==> s[i].id != s[j].id
  }

  /** Puts a channel before the first one it must not follow. */
  function Insert(c: Channel, s: seq<Channel>): (r: seq<Channel>)
    ensures multiset(r) == multiset(s) + multiset{c}
  {
    if s == [] || Compare(c, s[0]) <= 0 then [c] + s
    else
      assert s == [s[0]] + s[1..];
      [s[0]] + Insert(c, s[1..])
  }

  /** A sorted permutation; which one does not matter, as they are all equal. */
  function Sort(s: seq<Channel>): (r: seq<Channel>)
    ensures multiset(r) == multiset(s)
  {
    if s == [] then []
    else
      assert s == [s[0]] + s[1..];
      Insert(s[0], Sort(s[1..]))
  }

  lemma {:induction false} InsertSorted(c: Channel, s: seq<Channel>)
    requires Sorted(s)
    ensures Sorted(Insert(c, s))
  {
    if s == [] {
    } else if Compare(c, s[0]) <= 0 {
      forall i | 0 <= i < |s| ensures Compare(c, s[i]) <= 0 {
        if 0 < i {
          OrderTransitive(c, s[0], s[i]);
        }
      }
    } else {
      OrderTotal(c, s[0]);
      InsertSorted(c, s[1..]);
      var r := Insert(c, s[1..]);
      forall i | 0 <= i < |r| ensures Compare(s[0], r[i]) <= 0 {
        assert r[i] in multiset(s[1..]) + multiset{c};
        if r[i] != c {
          assert r[i] in s[1..];
        }
      }
    }
  }

  lemma {:induction false} SortSorts(s: seq<Channel>)
    ensures Sorted(Sort(s))
  {
    if s != [] {
      SortSorts(s[1..]);
      InsertSorted(s[0], Sort(s[1..]));
    }
  }

  lemma HeadsAgree(s: seq<Channel>, t: seq<Channel>)
    requires Sorted(s) && Sorted(t) && DistinctIds(s) && multiset(s) == multiset(t) && s != [] && t != []
    ensures s[0] == t[0]
  {
    assert s[0] in multiset(t) && t[0] in multiset(s);
    var i :| 0 <= i < |t| && t[i] == s[0];
    var j :| 0 <= j < |s| && s[j] == t[0];
    OrderTotal(s[0], t[0]);
  }

  /** Sorted lists of the same channels with distinct ids are equal, so it makes no difference
      how the library sorts, or that its sort is not stable. */
  lemma {:induction false} SortedUnique(s: seq<Channel>, t: seq<Channel>)
    requires Sorted(s) && Sorted(t) && DistinctIds(s) && multiset(s) == multiset(t)
    ensures s == t
  {
    if s == [] || t == [] {
      SameLength(s, t);
    } else {
      HeadsAgree(s, t);
      TailMultiset(s);
      TailMultiset(t);
      SortedUnique(s[1..], t[1..]);
    }
  }

  lemma TailMultiset<T>(s: seq<T>)
    requires s != []
    ensures multiset(s[1..]) == multiset(s) - multiset{s[0]}
  {
    assert s == [s[0]] + s[1..];
  }

  lemma SameLength(s: seq<Channel>, t: seq<Channel>)
    requires multiset(s) == multiset(t)
    ensures |s| == |t|
  {
    assert |multiset(s)| == |s| && |multiset(t)| == |t|;
  }

  // ---------- parsing ----------

  /** The channels of the shown services, the first of each id, in the order of the response. */
  function Kept(services: seq<Service>, seen: set<nat>): seq<Channel> {
    if services == [] then []
    else if Shown(services[0]) && services[0].id !in seen then
      [ToChannel(services[0])] + Kept(services[1..], seen + {services[0].id})
    else Kept(services[1..], seen)
  }

  function Parse(services: seq<Service>): seq<Channel> {
    Sort(Kept(services, {}))
  }

  ghost predicate Lists(services: seq<Service>, c: Channel) {
    exists i :: 0 <= i < |services| && Shown(services[i]) && ToChannel(services[i]) == c
  }

  lemma {:induction false} KeptAreListed(services: seq<Service>, seen: set<nat>)
    ensures DistinctIds(Kept(services, seen))
    ensures forall c :: c in Kept(services, seen) ==> c.id !in seen && Lists(services, c)
  {
    if services != [] {
      var first := services[0];
      var taken := Shown(first) && first.id !in seen;
      var rest := Kept(services[1..], if taken then seen + {first.id} else seen);
      KeptAreListed(services[1..], if taken then seen + {first.id} else seen);
      forall c | c in rest ensures Lists(services, c) {
        var i :| 0 <= i < |services[1..]| && Shown(services[1..][i]) && ToChannel(services[1..][i]) == c;
        assert Shown(services[i + 1]) && ToChannel(services[i + 1]) == c;
      }
      if taken {
        assert Lists(services, ToChannel(first)) by {
          assert Shown(services[0]) && ToChannel(services[0]) == ToChannel(first);
        }
        forall j | 0 <= j < |rest| ensures rest[j].id != first.id {
          assert rest[j] in rest;
        }
      }
    }
  }

  /** Every shown service's id is kept. */
  lemma {:induction false} ShownIdsAreKept(services: seq<Service>, seen: set<nat>, i: nat)
    requires i < |services| && Shown(services[i]) && services[i].id !in seen
    ensures exists c :: c in Kept(services, seen) && c.id == services[i].id
  {
    var first := services[0];
    if Shown(first) && first.id !in seen {
      if first.id == services[i].id {
        assert Kept(services, seen)[0].id == services[i].id;
        assert Kept(services, seen)[0] in Kept(services, seen);
      } else {
        ShownIdsAreKept(services[1..], seen + {first.id}, i - 1);
        var c :| c in Kept(services[1..], seen + {first.id}) && c.id == services[i].id;
        assert c in Kept(services, seen);
      }
    } else {
      ShownIdsAreKept(services[1..], seen, i - 1);
    }
  }

  predicate SameId(s: Service, t: Service) {
    Shown(s) && Shown(t) && s.id == t.id
  }

  /** Shown services with the same id describe the same channel. */
  ghost predicate IdsAgree(services: seq<Service>) {
    forall i, j :: 0 <= i < |services| && 0 <= j < |services| && SameId(services[i], services[j]) ==>
      ToChannel(services[i]) == ToChannel(services[j])
  }

  /** Then the channels kept are exactly those listed. */
  lemma KeptIffListed(services: seq<Service>, c: Channel)
    requires IdsAgree(services)
    ensures c in Kept(services, {}) <==> Lists(services, c)
  {
    KeptAreListed(services, {});
    if Lists(services, c) {
      var i :| 0 <= i < |services| && Shown(services[i]) && ToChannel(services[i]) == c;
      ShownIdsAreKept(services, {}, i);
      var d :| d in Kept(services, {}) && d.id == services[i].id;
      assert Lists(services, d);
    }
  }

  lemma ListsPermuted(p: seq<Service>, q: seq<Service>, c: Channel)
    requires multiset(p) == multiset(q) && Lists(p, c)
    ensures Lists(q, c)
  {
    var i :| 0 <= i < |p| && Shown(p[i]) && ToChannel(p[i]) == c;
    assert p[i] in multiset(q);
    var j :| 0 <= j < |q| && q[j] == p[i];
  }

  lemma IdsAgreePermuted(p: seq<Service>, q: seq<Service>)
    requires multiset(p) == multiset(q) && IdsAgree(p)
    ensures IdsAgree(q)
  {
    forall i, j | 0 <= i < |q| && 0 <= j < |q| && SameId(q[i], q[j])
      ensures ToChannel(q[i]) == ToChannel(q[j])
    {
      assert q[i] in multiset(p) && q[j] in multiset(p);
      var k :| 0 <= k < |p| && p[k] == q[i];
      var l :| 0 <= l < |p| && p[l] == q[j];
    }
  }

  lemma {:induction false} CountDistinct(s: seq<Channel>, c: Channel)
    requires DistinctIds(s)
    ensures multiset(s)[c] == if c in s then 1 else 0
  {
    if s != [] {
      CountDistinct(s[1..], c);
      TailMultiset(s);
      assert s == [s[0]] + s[1..];
    }
  }

  /** Lists with distinct ids and the same channels sort to the same list. */
  lemma SameChannelsSortEqual(s: seq<Channel>, t: seq<Channel>)
    requires DistinctIds(s) && DistinctIds(t) && forall c :: c in s <==> c in t
    ensures Sort(s) == Sort(t)
  {
    forall c ensures multiset(s)[c] == multiset(t)[c] {
      CountDistinct(s, c);
      CountDistinct(t, c);
    }
    assert multiset(s) == multiset(t);
    SortSorts(s);
    SortSorts(t);
    PermutedDistinct(s, Sort(s));
    SortedUnique(Sort(s), Sort(t));
  }

  lemma TwiceCounted(t: seq<Channel>, i: nat, j: nat)
    requires i < j < |t| && t[i] == t[j]
    ensures multiset(t)[t[i]] >= 2
  {
    assert t == t[..j] + [t[j]] + t[j + 1..];
    assert t[i] in t[..j];
    assert multiset(t) == multiset(t[..j]) + multiset{t[j]} + multiset(t[j + 1..]);
  }

  lemma PermutedDistinct(s: seq<Channel>, t: seq<Channel>)
    requires DistinctIds(s) && multiset(s) == multiset(t)
    ensures DistinctIds(t)
  {
    forall i, j | 0 <= i < j < |t| ensures t[i].id != t[j].id {
      if t[i] == t[j] {
        TwiceCounted(t, i, j);
        CountDistinct(s, t[i]);
      } else {
        assert t[i] in multiset(s) && t[j] in multiset(s);
        if t[i].id == t[j].id {
          OneOfId(s, t[i], t[j]);
        }
      }
    }
  }

  lemma AgreeingIsOrderFree(p: seq<Service>, q: seq<Service>)
    requires IdsAgree(p) && multiset(p) == multiset(q)
    ensures Parse(p) == Parse(q)
  {
    IdsAgreePermuted(p, q);
    KeptAreListed(p, {});
    KeptAreListed(q, {});
    forall c ensures c in Kept(p, {}) <==> c in Kept(q, {}) {
      KeptIffListed(p, c);
      KeptIffListed(q, c);
      if Lists(p, c) {
        ListsPermuted(p, q, c);
      }
      if Lists(q, c) {
        ListsPermuted(q, p, c);
      }
    }
    SameChannelsSortEqual(Kept(p, {}), Kept(q, {}));
  }

  /** A shown service listed first always gets its own channel. */
  lemma FirstIsKept(services: seq<Service>)
    requires services != [] && Shown(services[0])
    ensures ToChannel(services[0]) in Parse(services) && DistinctIds(Parse(services))
  {
    var kept := Kept(services, {});
    assert kept[0] == ToChannel(services[0]);
    assert kept[0] in multiset(Sort(kept));
    KeptAreListed(services, {});
    PermutedDistinct(kept, Sort(kept));
  }

  function ToFront(services: seq<Service>, i: nat): (r: seq<Service>)
    requires i < |services|
    ensures multiset(r) == multiset(services) && r[0] == services[i]
  {
    assert services == services[..i] + [services[i]] + services[i + 1..];
    [services[i]] + services[..i] + services[i + 1..]
  }

  /** Whether the channel list depends on the order of the response. */
  ghost predicate OrderFree(p: seq<Service>) {
    forall q :: multiset(q) == multiset(p) ==> Parse(q) == Parse(p)
  }

  lemma FrontsAgree(p: seq<Service>, i: nat, j: nat)
    requires i < |p| && j < |p| && SameId(p[i], p[j])
    requires Parse(ToFront(p, i)) == Parse(ToFront(p, j))
    ensures ToChannel(p[i]) == ToChannel(p[j])
  {
    FirstIsKept(ToFront(p, i));
    FirstIsKept(ToFront(p, j));
    OneOfId(Parse(ToFront(p, i)), ToChannel(p[i]), ToChannel(p[j]));
  }

  lemma OneOfId(s: seq<Channel>, c: Channel, d: Channel)
    requires DistinctIds(s) && c in s && d in s && c.id == d.id
    ensures c == d
  {
    var k :| 0 <= k < |s| && s[k] == c;
    var l :| 0 <= l < |s| && s[l] == d;
  }

  lemma OrderFreeAgrees(p: seq<Service>)
    requires OrderFree(p)
    ensures IdsAgree(p)
  {
    forall i, j | 0 <= i < |p| && 0 <= j < |p| && SameId(p[i], p[j])
      ensures ToChannel(p[i]) == ToChannel(p[j])
    {
      assert Parse(ToFront(p, i)) == Parse(p);
      assert Parse(ToFront(p, j)) == Parse(p);
      FrontsAgree(p, i, j);
    }
  }

  /** Parsing is independent of the response's order exactly when shown services with the same
      id describe the same channel; in particular whenever ids are distinct. */
  lemma OrderFreeIffIdsAgree(p: seq<Service>)
    ensures OrderFree(p) <==> IdsAgree(p)
  {
    if IdsAgree(p) {
      forall q | multiset(q) == multiset(p) ensures Parse(q) == Parse(p) {
        AgreeingIsOrderFree(p, q);
      }
    }
    if OrderFree(p) {
      OrderFreeAgrees(p);
    }
  }

  /** The result is sorted, without repeated ids, and lists each kept channel once. */
  lemma ParseResult(services: seq<Service>)
    ensures Sorted(Parse(services)) && DistinctIds(Parse(services))
    ensures forall c :: c in Parse(services) ==> Lists(services, c)
    ensures forall i :: 0 <= i < |services| && Shown(services[i]) ==>
      exists c :: c in Parse(services) && c.id == services[i].id
  {
    var kept := Kept(services, {});
    KeptAreListed(services, {});
    SortSorts(kept);
    PermutedDistinct(kept, Sort(kept));
    assert forall c :: c in Sort(kept) <==> c in multiset(kept);
    forall i | 0 <= i < |services| && Shown(services[i])
      ensures exists c :: c in Parse(services) && c.id == services[i].id
    {
      ShownIdsAreKept(services, {}, i);
      var c :| c in kept && c.id == services[i].id;
      assert c in Parse(services);
    }
  }

  /** Service i is the first shown one of its id. */
  predicate FirstShown(services: seq<Service>, i: nat)
    requires i < |services|
  {
    Shown(services[i]) && forall j :: 0 <= j < i ==> !SameId(services[j], services[i])
  }

  ghost predicate ListsFirst(services: seq<Service>, c: Channel) {
    exists i: nat :: i < |services| && FirstShown(services, i) && ToChannel(services[i]) == c
  }

  lemma {:induction false} KeptExactly(services: seq<Service>, seen: set<nat>, c: Channel)
    ensures c in Kept(services, seen) <==> c.id !in seen && ListsFirst(services, c)
  {
    if services != [] {
      var first, rest := services[0], services[1..];
      var taken := Shown(first) && first.id !in seen;
      var seen' := if taken then seen + {first.id} else seen;
      KeptExactly(rest, seen', c);
      assert c in Kept(services, seen) <==> (taken && c == ToChannel(first)) || c in Kept(rest, seen');
      if ListsFirst(services, c) {
        var i: nat :| i < |services| && FirstShown(services, i) && ToChannel(services[i]) == c;
        if 0 < i {
          FirstOfRest(services, i);
        }
      }
      if ListsFirst(rest, c) {
        var i: nat :| i < |rest| && FirstShown(rest, i) && ToChannel(rest[i]) == c;
        if !(Shown(first) && first.id == c.id) {
          FirstOfAll(services, i + 1);
        }
      }
      if taken && c == ToChannel(first) {
        assert FirstShown(services, 0);
      }
    }
  }

  lemma FirstOfRest(services: seq<Service>, i: nat)
    requires 0 < i < |services| && FirstShown(services, i)
    ensures FirstShown(services[1..], i - 1) && !SameId(services[0], services[i])
  {
    assert forall j :: 0 <= j < i - 1 ==> services[1..][j] == services[j + 1];
  }

  lemma FirstOfAll(services: seq<Service>, i: nat)
    requires 0 < i < |services| && FirstShown(services[1..], i - 1) && !SameId(services[0], services[i])
    ensures FirstShown(services, i)
  {
    assert forall j :: 0 < j < i ==> services[j] == services[1..][j - 1];
  }

  /** The list has exactly the channels of the shown services that are the first of their id,
      whatever else has that id. */
  lemma ParseExactly(services: seq<Service>, c: Channel)
    ensures c in Parse(services) <==> ListsFirst(services, c)
  {
    KeptExactly(services, {}, c);
    var kept := Kept(services, {});
    assert c in Sort(kept) <==> c in multiset(Sort(kept));
    assert c in kept <==> c in multiset(kept);
  }

  /** A service is shown exactly if it is a television service with an id and a name that is not
      only white space. */
  lemma ShownExactly(s: Service)
    ensures Shown(s) <==> s.kind == 1 && s.id != 0 && exists i :: 0 <= i < |s.name| && !IsWhiteSpace(s.name[i])
  {
  }

  lemma KeptStep(services: seq<Service>, i: nat, seen: set<nat>, before: seq<Channel>)
    requires i < |services|
    ensures before + Kept(services[i..], seen) ==
      if Shown(services[i]) && services[i].id !in seen then
        before + [ToChannel(services[i])] + Kept(services[i + 1..], seen + {services[i].id})
      else before + Kept(services[i + 1..], seen)
  {
    var rest := services[i..];
    assert rest[0] == services[i] && rest[1..] == services[i + 1..];
    if Shown(services[i]) && services[i].id !in seen {
      var later := Kept(services[i + 1..], seen + {services[i].id});
      assert before + ([ToChannel(services[i])] + later) == before + [ToChannel(services[i])] + later;
    }
  }

  /** The list as it is built: ids already seen are skipped, then the list is sorted. */
  method ParseServices(services: seq<Service>) returns (channels: seq<Channel>)
    ensures channels == Parse(services)
  {
    var seen: set<nat> := {};
    channels := [];
    assert services[0..] == services;
    for i := 0 to |services|
      invariant Kept(services, {}) == channels + Kept(services[i..], seen)
    {
      var s := services[i];
      KeptStep(services, i, seen, channels);
      if Shown(s) && s.id !in seen {
        seen := seen + {s.id};
        channels := channels + [ToChannel(s)];
      }
    }
    assert channels == Kept(services, {});
    channels := Sort(channels);
  }
}

/** The catalogue a viewer selects from; a refresh never changes which station is selected. */
module ChannelCatalog {
  import opened Common
  import opened Channels

  /** No selection until the first channels arrive. */
  datatype State = State(channels: seq<Channel>, selection: Option<nat>)

  function Find(channels: seq<Channel>, id: nat): (r: Option<nat>)
    ensures r.Some? ==> r.value < |channels| && channels[r.value].id == id
    ensures r.Some? ==> forall i :: 0 <= i < r.value ==> channels[i].id != id
    ensures r.None? ==> forall i :: 0 <= i < |channels| ==> channels[i].id != id
  {
    if channels == [] then None
    else if channels[0].id == id then Some(0)
    else
      var rest := Find(channels[1..], id);
      assert forall i :: 0 < i < |channels| ==> channels[i] == channels[1..][i - 1];
      if rest.Some? then Some(rest.value + 1) else None
  }

  function SelectedIndex(s: State): Option<nat> {
    if s.selection.Some? then Find(s.channels, s.selection.value) else None
  }

  function Default(channels: seq<Channel>, preferred: Option<nat>): Option<nat> {
    if preferred.Some? && Find(channels, preferred.value).Some? then preferred
    else if channels != [] then Some(channels[0].id)
    else None
  }

  function Replace(s: State, channels: seq<Channel>, preferred: Option<nat>): State {
    State(channels, if s.selection.None? then Default(channels, preferred) else s.selection)
  }

  function Select(s: State, index: nat): State {
    if index < |s.channels| then s.(selection := Some(s.channels[index].id)) else s
  }

  datatype Event = DoReplace(channels: seq<Channel>, preferred: Option<nat>) | DoSelect(index: nat)

  function Step(s: State, e: Event): State {
    match e
    case DoReplace(channels, preferred) => Replace(s, channels, preferred)
    case DoSelect(index) => Select(s, index)
  }

  function Run(s: State, es: seq<Event>): State
    decreases |es|
  {
    if es == [] then s else Run(Step(s, es[0]), es[1..])
  }

  /** Through any refreshes, even ones without it or without any channel, the selected station
      stays the selected one, and it is found again exactly when it is listed. */
  lemma {:induction false} RefreshesKeepSelection(s: State, es: seq<Event>)
    requires s.selection.Some? && forall i :: 0 <= i < |es| ==> es[i].DoReplace?
    ensures Run(s, es).selection == s.selection
    ensures SelectedIndex(Run(s, es)).Some? <==>
      exists i :: 0 <= i < |Run(s, es).channels| && Run(s, es).channels[i].id == s.selection.value
    decreases |es|
  {
    if es != [] {
      RefreshesKeepSelection(Step(s, es[0]), es[1..]);
    }
  }

  /** A station is chosen when there is none: the preferred one if it is listed, else the first;
      an empty list leaves the choice open. A chosen one is never replaced. */
  lemma ReplaceExactly(s: State, channels: seq<Channel>, preferred: Option<nat>)
    ensures
      var s' := Replace(s, channels, preferred);
      && s'.channels == channels
      && (s.selection.Some? ==> s'.selection == s.selection)
      && (s.selection.None? && channels == [] ==> s'.selection == None)
      && (s.selection.None? && channels != [] ==>
           s'.selection == Some(
             if preferred.Some? && exists i :: 0 <= i < |channels| && channels[i].id == preferred.value then preferred.value
             else channels[0].id))
  {
  }

  /** In a list without repeated ids, a place that is selected is the one found afterwards, at
      once and after any refreshes with the same list; a place outside the list changes nothing. */
  lemma SelectExactly(s: State, index: nat, es: seq<Event>)
    requires DistinctIds(s.channels)
    requires forall i :: 0 <= i < |es| ==> es[i].DoReplace? && es[i].channels == s.channels
    ensures
      if index < |s.channels| then SelectedIndex(Run(Select(s, index), es)) == Some(index)
      else Select(s, index) == s
  {
    if index < |s.channels| {
      RefreshesKeepSelection(Select(s, index), es);
      SameListKept(Select(s, index), es);
      assert Find(s.channels, s.channels[index].id).Some?;
    }
  }

  lemma {:induction false} SameListKept(s: State, es: seq<Event>)
    requires forall i :: 0 <= i < |es| ==> es[i].DoReplace? && es[i].channels == s.channels
    ensures Run(s, es).channels == s.channels
    decreases |es|
  {
    if es != [] {
      SameListKept(Step(s, es[0]), es[1..]);
    }
  }

  // ---------- remote keys ----------

  predicate Matches(c: Channel, key: nat, band: Band) {
    c.band == band && c.remoteKey == Some(key)
  }

  /** The station being watched first, then by service and id, those without a service last. */
  function Prefer(a: Channel, b: Channel, viewing: Option<nat>): int {
    First(CompareInt(if Some(a.id) == viewing then 0 else 1, if Some(b.id) == viewing then 0 else 1),
    First(CompareInt(if a.serviceId.None? then 1 else 0, if b.serviceId.None? then 1 else 0),
    First(CompareInt(Rank(a.serviceId), Rank(b.serviceId)),
          CompareInt(a.id, b.id))))
  }

  /** The first of the most preferred matching channels among the first n. */
  function BestOf(channels: seq<Channel>, n: nat, key: nat, band: Band, viewing: Option<nat>): (r: Option<nat>)
    requires n <= |channels|
    ensures r.Some? ==> r.value < n && Matches(channels[r.value], key, band)
  {
    if n == 0 then None
    else
      var best := BestOf(channels, n - 1, key, band, viewing);
      if Matches(channels[n - 1], key, band)
         && (best.None? || Prefer(channels[n - 1], channels[best.value], viewing) < 0)
      then Some(n - 1) else best
  }

  function RemoteKey(channels: seq<Channel>, key: nat, band: Band, viewing: Option<nat>): Option<nat> {
    BestOf(channels, |channels|, key, band, viewing)
  }

  lemma {:induction false} BestIsBest(channels: seq<Channel>, n: nat, key: nat, band: Band, viewing: Option<nat>, i: nat)
    requires i < n <= |channels| && Matches(channels[i], key, band)
    ensures
      var best := BestOf(channels, n, key, band, viewing);
      best.Some? && Prefer(channels[best.value], channels[i], viewing) <= 0
  {
    if i < n - 1 {
      BestIsBest(channels, n - 1, key, band, viewing, i);
    }
  }

  /** A remote key picks the same station however the catalogue is ordered. */
  lemma RemoteKeyOrderFree(s: seq<Channel>, t: seq<Channel>, key: nat, band: Band, viewing: Option<nat>)
    requires DistinctIds(s) && multiset(s) == multiset(t)
    ensures
      var i, j := RemoteKey(s, key, band, viewing), RemoteKey(t, key, band, viewing);
      && (i.Some? <==> j.Some?)
      && (i.Some? ==> s[i.value] == t[j.value])
  {
    PermutedDistinct(s, t);
    var i, j := RemoteKey(s, key, band, viewing), RemoteKey(t, key, band, viewing);
    if i.Some? {
      assert s[i.value] in multiset(t);
      var k :| 0 <= k < |t| && t[k] == s[i.value];
      BestIsBest(t, |t|, key, band, viewing, k);
    }
    if j.Some? {
      assert t[j.value] in multiset(s);
      var k :| 0 <= k < |s| && s[k] == t[j.value];
      BestIsBest(s, |s|, key, band, viewing, k);
    }
    if i.Some? {
      SameChannel(s, i.value, t, j.value);
    }
  }

  lemma SameChannel(s: seq<Channel>, i: nat, t: seq<Channel>, j: nat)
    requires DistinctIds(s) && multiset(s) == multiset(t) && i < |s| && j < |t| && s[i].id == t[j].id
    ensures s[i] == t[j]
  {
    assert t[j] in multiset(s);
    var k :| 0 <= k < |s| && s[k] == t[j];
  }

  /** The station being watched wins if the key is its own; otherwise the lowest service number
      does, those without one coming last, and the lowest id among equals. */
  lemma RemoteKeyChoice(channels: seq<Channel>, key: nat, band: Band, viewing: Option<nat>, i: nat)
    requires i < |channels| && channels[i].band == band && channels[i].remoteKey == Some(key)
    ensures
      var best := RemoteKey(channels, key, band, viewing);
      && best.Some? && channels[best.value].band == band && channels[best.value].remoteKey == Some(key)
      && (Some(channels[i].id) == viewing ==> channels[best.value].id == channels[i].id)
      && (Some(channels[best.value].id) != viewing && channels[i].serviceId.Some? ==>
           channels[best.value].serviceId.Some?
           && channels[best.value].serviceId.value <= channels[i].serviceId.value)
      && (Some(channels[best.value].id) != viewing && channels[i].serviceId == channels[best.value].serviceId ==>
           channels[best.value].id <= channels[i].id)
  {
    BestIsBest(channels, |channels|, key, band, viewing, i);
  }

  class Catalog {
    var channels: seq<Channel>
    var selection: Option<nat>

    ghost function Now(): State
      reads this
    {
      State(channels, selection)
    }

    constructor ()
      ensures Now() == State([], None)
    {
      channels, selection := [], None;
    }

    method ReplaceChannels(fetched: seq<Channel>, preferred: Option<nat>)
      modifies this
      ensures Now() == Replace(old(Now()), fetched, preferred)
    {
      if selection.None? {
        if preferred.Some? && Find(fetched, preferred.value).Some? {
          selection := preferred;
        } else if fetched != [] {
          selection := Some(fetched[0].id);
        }
      }
      channels := fetched;
    }

    method SelectIndex(index: nat) returns (chosen: Option<Channel>)
      modifies this`selection
      ensures chosen == if index < |channels| then Some(channels[index]) else None
      ensures Now() == Select(old(Now()), index)
    {
      if index >= |channels| {
        return None;
      }
      selection := Some(channels[index].id);
      return Some(channels[index]);
    }
  }
}
