/**
 Viewing history: favourite stations, recent stations and recordings, as one document that
 is saved after every change and must be loadable again.
 */
module ViewingHistory {
  import opened Common
  import opened Lists
  import Decimal

  const MAX_FAVORITES: nat := 4096
  const MAX_RECENT: nat := 20
  const MAX_RECORDINGS: nat := 500
  const MAX_TEXT_BYTES: nat := 16 * 1024
  const MAX_KEY_BYTES: nat := 64
  const KEY_PREFIX := "recording:"

  datatype Source =
    | Local(path: string)
    | Http(url: string)
    | Epgstation(server: string, recordedId: U64, videoFileId: U64)

  datatype BroadcastHint = BroadcastHint(networkId: nat, serviceId: nat, startMs: int)

  datatype Identity = Identity(
    source: Source,
    thumbnailId: Option<U64>,
    title: string,
    channel: string,
    broadcast: Option<BroadcastHint>)

  datatype Position = Position(positionMs: real, durationMs: real)

  datatype Entry = Entry(key: string, identity: Identity, position: Position)

  datatype Document = Document(favorites: seq<U64>, recent: seq<U64>, recordings: seq<Entry>, nextKey: U64)

  const EmptyDocument := Document([], [], [], 0)

  // ---------- what a saved document must satisfy ----------

  function Utf8Width(c: char): nat {
    var n := c as int;
    if n < 0x80 then 1 else if n < 0x800 then 2 else if n < 0x1_0000 then 3 else 4
  }

  /** The length of a text in bytes, as limits count it. */
  function Utf8Bytes(s: string): nat {
    if s == [] then 0 else Utf8Width(s[0]) + Utf8Bytes(s[1..])
  }

  lemma {:induction false} AsciiBytes(s: string)
    requires forall i :: 0 <= i < |s| ==> s[i] as int < 0x80
    ensures Utf8Bytes(s) == |s|
  {
    if s != [] {
      AsciiBytes(s[1..]);
    }
  }

  /** The rule for sources (absolute paths, parsable addresses) is a parameter. */
  type SourceRule = Source -> bool

  predicate ValidIdentity(identity: Identity, rule: SourceRule) {
    && rule(identity.source)
    && Utf8Bytes(identity.title) <= MAX_TEXT_BYTES
    && Utf8Bytes(identity.channel) <= MAX_TEXT_BYTES
    && (identity.broadcast.Some? ==>
         0 < identity.broadcast.value.startMs && identity.broadcast.value.startMs * 1_000_000 <= 0x7FFF_FFFF_FFFF_FFFF)
  }

  predicate ValidPosition(p: Position) {
    0.0 <= p.positionMs <= p.durationMs && 0.0 < p.durationMs
  }

  predicate ValidEntry(e: Entry, rule: SourceRule) {
    e.key != "" && Utf8Bytes(e.key) <= MAX_KEY_BYTES && ValidIdentity(e.identity, rule) && ValidPosition(e.position)
  }

  /** The number of a key: what follows its prefix, read as a 64-bit number. */
  function KeyNumber(key: string): Option<U64> {
    if KEY_PREFIX <= key then Decimal.Parse(key[|KEY_PREFIX|..]) else None
  }

  predicate KeyIssued(key: string, nextKey: U64) {
    KeyNumber(key).Some? && 0 < KeyNumber(key).value <= nextKey
  }

  function Keys(entries: seq<Entry>): (r: seq<string>)
    ensures |r| == |entries| && forall i :: 0 <= i < |r| ==> r[i] == entries[i].key
  {
    seq(|entries|, i requires 0 <= i < |entries| => entries[i].key)
  }

  function Sources(entries: seq<Entry>): (r: seq<Source>)
    ensures |r| == |entries| && forall i :: 0 <= i < |r| ==> r[i] == entries[i].identity.source
  {
    seq(|entries|, i requires 0 <= i < |entries| => entries[i].identity.source)
  }

  predicate AllDifferent<T(==)>(s: seq<T>) {
    |set x | x in s| == |s|
  }

  /** The check made when a document is loaded and before it is saved. */
  predicate Validate(d: Document, rule: SourceRule) {
    && |d.recordings| <= MAX_RECORDINGS
    && (forall i :: 0 <= i < |d.recordings| ==>
          ValidEntry(d.recordings[i], rule) && KeyIssued(d.recordings[i].key, d.nextKey))
    && AllDifferent(Sources(d.recordings))
    && AllDifferent(Keys(d.recordings))
    && |d.recent| <= MAX_RECENT
    && AllDifferent(d.recent)
    && |d.favorites| <= MAX_FAVORITES
    && AllDifferent(d.favorites)
  }

  /** The part of the check that concerns the order and identity of recordings. */
  ghost predicate Keyed(d: Document) {
    && |d.recordings| <= MAX_RECORDINGS
    && (forall i :: 0 <= i < |d.recordings| ==> KeyIssued(d.recordings[i].key, d.nextKey))
    && Distinct(Sources(d.recordings))
    && Distinct(Keys(d.recordings))
  }

  ghost predicate KeysFit(entries: seq<Entry>) {
    forall i :: 0 <= i < |entries| ==> Utf8Bytes(entries[i].key) <= MAX_KEY_BYTES
  }

  ghost predicate StationsValid(d: Document) {
    |d.recent| <= MAX_RECENT && Distinct(d.recent) && |d.favorites| <= MAX_FAVORITES && Distinct(d.favorites)
  }

  /** Everything the check asks except of what was recorded. */
  ghost predicate Formed(d: Document) {
    Keyed(d) && KeysFit(d.recordings) && StationsValid(d)
  }

  predicate ValidRecord(identity: Identity, position: Position, rule: SourceRule) {
    ValidIdentity(identity, rule) && ValidPosition(position)
  }

  ghost predicate ContentsValid(entries: seq<Entry>, rule: SourceRule) {
    forall i :: 0 <= i < |entries| ==> ValidRecord(entries[i].identity, entries[i].position, rule)
  }

  /** The check, which compares the sizes of sets, in terms of the lists themselves. */
  lemma ValidParts(d: Document, rule: SourceRule)
    ensures Validate(d, rule) <==> Formed(d) && ContentsValid(d.recordings, rule)
  {
    SizeIffDistinct(Sources(d.recordings));
    SizeIffDistinct(Keys(d.recordings));
    SizeIffDistinct(d.recent);
    SizeIffDistinct(d.favorites);
  }

  /** What a player reports becomes a position, cut at the end, if it makes sense. */
  function PositionOf(positionMs: real, durationMs: real): Option<Position> {
    if 0.0 <= positionMs && 0.0 < durationMs then
      Some(Position(if durationMs < positionMs then durationMs else positionMs, durationMs))
    else None
  }

  /** The valid positions are exactly those that such reports give. */
  lemma PositionsExactly(p: Position)
    ensures ValidPosition(p) <==> PositionOf(p.positionMs, p.durationMs) == Some(p)
    ensures ValidPosition(p) <==> exists positionMs, durationMs :: PositionOf(positionMs, durationMs) == Some(p)
  {
    if ValidPosition(p) {
      assert PositionOf(p.positionMs, p.durationMs) == Some(p);
    }
  }

  // ---------- operations ----------

  predicate ToggleAccepts(d: Document, service: U64) {
    service in d.favorites || |d.favorites| != MAX_FAVORITES
  }

  function Toggle(d: Document, service: U64): Document {
    var index := IndexOf(d.favorites, service);
    if index.Some? then d.(favorites := RemoveAt(d.favorites, index.value))
    else if |d.favorites| == MAX_FAVORITES then d
    else d.(favorites := d.favorites + [service])
  }

  predicate MoveAccepts(d: Document, service: U64, position: nat) {
    position < |d.favorites| && service in d.favorites
  }

  function Move(d: Document, service: U64, position: nat): Document {
    if !MoveAccepts(d, service, position) then d else
    var index := IndexOf(d.favorites, service).value;
    d.(favorites := InsertAt(RemoveAt(d.favorites, index), position, service))
  }

  /** A station watched long enough goes to the front of the recent ones. */
  function Observe(d: Document, service: U64): Document {
    d.(recent := Take([service] + Without(d.recent, service), MAX_RECENT))
  }

  predicate RecordAccepts(d: Document, identity: Identity, position: Position) {
    var previous := IndexOf(Sources(d.recordings), identity.source);
    if previous.Some? then
      d.recordings[previous.value].position != position || d.recordings[previous.value].identity != identity
    else d.nextKey < U64_MAX
  }

  function NewKey(n: U64): string {
    KEY_PREFIX + Decimal.Print(n)
  }

  /** The entries of all sources but one. */
  function Others(d: Document, source: Source): seq<Entry> {
    var previous := IndexOf(Sources(d.recordings), source);
    if previous.Some? then RemoveAt(d.recordings, previous.value) else d.recordings
  }

  /** The key a source keeps, or else the next one; none when the keys are exhausted. */
  function KeyClaimed(d: Document, source: Source): Option<string> {
    var previous := IndexOf(Sources(d.recordings), source);
    if previous.Some? then Some(d.recordings[previous.value].key)
    else if d.nextKey == U64_MAX then None
    else Some(NewKey(d.nextKey + 1))
  }

  /** The document once the source's entry is off the list and its key is issued. */
  function Claimed(d: Document, source: Source): Document {
    if source in Sources(d.recordings) then d.(recordings := Others(d, source))
    else if d.nextKey == U64_MAX then d
    else d.(nextKey := d.nextKey + 1)
  }

  /** A recording's progress: a known source keeps its key and comes to the front, an unknown
      one is given the next key. */
  function Record(d: Document, identity: Identity, position: Position): Document {
    if !RecordAccepts(d, identity, position) then d else
    var previous := IndexOf(Sources(d.recordings), identity.source);
    if previous.Some? then
      var entry := Entry(d.recordings[previous.value].key, identity, position);
      d.(recordings := Take([entry] + RemoveAt(d.recordings, previous.value), MAX_RECORDINGS))
    else
      var entry := Entry(NewKey(d.nextKey + 1), identity, position);
      d.(recordings := Take([entry] + d.recordings, MAX_RECORDINGS), nextKey := d.nextKey + 1)
  }

  // ---------- every operation keeps the document valid ----------

  lemma ToggleKeepsValid(d: Document, service: U64, rule: SourceRule)
    requires Formed(d)
    ensures Formed(Toggle(d, service))
    ensures Validate(Toggle(d, service), rule) <==> Validate(d, rule)
  {
    ValidParts(d, rule);
    ValidParts(Toggle(d, service), rule);
    var index := IndexOf(d.favorites, service);
    if index.Some? {
      RemoveAtDistinct(d.favorites, index.value);
    }
  }

  /** Toggling adds a missing station at the end and takes a present one out, leaving the
      others in order; only a full list refuses. */
  lemma ToggleEffect(d: Document, service: U64)
    requires Distinct(d.favorites)
    ensures forall s :: s in Toggle(d, service).favorites <==>
      (if s == service then service !in d.favorites && |d.favorites| != MAX_FAVORITES else s in d.favorites)
    ensures Without(Toggle(d, service).favorites, service) == Without(d.favorites, service)
    ensures Toggle(d, service) == d <==> service !in d.favorites && |d.favorites| == MAX_FAVORITES
    ensures service !in d.favorites && |d.favorites| != MAX_FAVORITES ==>
      Toggle(d, service).favorites == d.favorites + [service]
  {
    var index := IndexOf(d.favorites, service);
    if index.Some? {
      RemoveAtDistinct(d.favorites, index.value);
      WithoutAt(d.favorites, index.value);
      WithoutAbsent(RemoveAt(d.favorites, index.value), service);
    } else if |d.favorites| != MAX_FAVORITES {
      var longer := d.favorites + [service];
      WithoutAbsent(d.favorites, service);
      assert Distinct(longer);
      WithoutAt(longer, |d.favorites|);
    }
  }

  lemma MoveKeepsValid(d: Document, service: U64, position: nat, rule: SourceRule)
    requires Formed(d)
    ensures Formed(Move(d, service, position))
    ensures Validate(Move(d, service, position), rule) <==> Validate(d, rule)
  {
    ValidParts(d, rule);
    ValidParts(Move(d, service, position), rule);
    if MoveAccepts(d, service, position) {
      var index := IndexOf(d.favorites, service).value;
      RemoveAtDistinct(d.favorites, index);
      InsertDistinct(RemoveAt(d.favorites, index), position, service);
    }
  }

  /** A station on the list stands at the requested place afterwards, and the others keep their
      order; a station or place not on the list changes nothing. */
  lemma MoveEffect(d: Document, service: U64, position: nat)
    requires Distinct(d.favorites)
    ensures
      var moved := Move(d, service, position).favorites;
      if service in d.favorites && position < |d.favorites| then
        |moved| == |d.favorites| && moved[position] == service
        && Without(moved, service) == Without(d.favorites, service)
      else Move(d, service, position) == d
  {
    if service in d.favorites && position < |d.favorites| {
      MovedTo(d, service, position);
    }
  }

  lemma MovedTo(d: Document, service: U64, position: nat)
    requires Distinct(d.favorites) && service in d.favorites && position < |d.favorites|
    ensures
      var moved := Move(d, service, position).favorites;
      |moved| == |d.favorites| && moved[position] == service && Without(moved, service) == Without(d.favorites, service)
  {
    var index := IndexOf(d.favorites, service).value;
    var rest := RemoveAt(d.favorites, index);
    RemoveAtDistinct(d.favorites, index);
    InsertDistinct(rest, position, service);
    WithoutAt(d.favorites, index);
    WithoutAt(InsertAt(rest, position, service), position);
  }

  lemma ObserveKeepsValid(d: Document, service: U64, rule: SourceRule)
    requires Formed(d)
    ensures Formed(Observe(d, service))
    ensures Validate(Observe(d, service), rule) <==> Validate(d, rule)
  {
    ValidParts(d, rule);
    ValidParts(Observe(d, service), rule);
    WithoutDistinct(d.recent, service);
  }

  /** The next key parses to its own number, so it differs from every key in use. */
  lemma NewKeyNumber(n: U64)
    ensures KeyNumber(NewKey(n)) == Some(n) && NewKey(n) != "" && Utf8Bytes(NewKey(n)) <= MAX_KEY_BYTES
  {
    Decimal.ParsePrint(n);
    Decimal.PrintedU64Length(n);
    assert NewKey(n)[|KEY_PREFIX|..] == Decimal.Print(n);
    AsciiBytes(NewKey(n));
  }

  /** The keys issued so far are the numbers from one to the last. */
  lemma IssuedExactly(m: U64, last: U64)
    ensures KeyIssued(NewKey(m), last) <==> 1 <= m <= last
  {
    NewKeyNumber(m);
  }

  /** Plain text is limited by its length. */
  lemma TextLimit(identity: Identity, rule: SourceRule)
    requires identity.broadcast.None? && forall i :: 0 <= i < |identity.title| ==> identity.title[i] as int < 0x80
    requires identity.channel == ""
    ensures ValidIdentity(identity, rule) <==> rule(identity.source) && |identity.title| <= 16384
  {
    AsciiBytes(identity.title);
  }

  /** The entry that recording puts in front. */
  function Recorded(d: Document, identity: Identity, position: Position): Entry
    requires RecordAccepts(d, identity, position)
  {
    var previous := IndexOf(Sources(d.recordings), identity.source);
    Entry(if previous.Some? then d.recordings[previous.value].key else NewKey(d.nextKey + 1), identity, position)
  }

  lemma ColumnsOfRemoved(entries: seq<Entry>, i: nat)
    requires i < |entries|
    ensures Sources(RemoveAt(entries, i)) == RemoveAt(Sources(entries), i)
    ensures Keys(RemoveAt(entries, i)) == RemoveAt(Keys(entries), i)
  {
  }

  lemma SourcesOfCut(e: Entry, entries: seq<Entry>, n: nat)
    ensures Sources(Take([e] + entries, n)) == Take([e.identity.source] + Sources(entries), n)
  {
    var cut, goal := Sources(Take([e] + entries, n)), Take([e.identity.source] + Sources(entries), n);
    forall i | 0 <= i < |cut| ensures cut[i] == goal[i] {
      assert Take([e] + entries, n)[i] == ([e] + entries)[i];
    }
    assert cut == goal;
  }

  lemma KeysOfCut(e: Entry, entries: seq<Entry>, n: nat)
    ensures Keys(Take([e] + entries, n)) == Take([e.key] + Keys(entries), n)
  {
    var cut, goal := Keys(Take([e] + entries, n)), Take([e.key] + Keys(entries), n);
    forall i | 0 <= i < |cut| ensures cut[i] == goal[i] {
      assert Take([e] + entries, n)[i] == ([e] + entries)[i];
    }
    assert cut == goal;
  }

  lemma OthersInOrder(d: Document, source: Source)
    requires Keyed(d)
    ensures Sources(Others(d, source)) == Without(Sources(d.recordings), source)
    ensures Distinct(Sources(Others(d, source))) && Distinct(Keys(Others(d, source)))
  {
    var previous := IndexOf(Sources(d.recordings), source);
    if previous.Some? {
      ColumnsOfRemoved(d.recordings, previous.value);
      RemoveAtDistinct(Sources(d.recordings), previous.value);
      RemoveAtDistinct(Keys(d.recordings), previous.value);
      WithoutAt(Sources(d.recordings), previous.value);
    } else {
      WithoutAbsent(Sources(d.recordings), source);
    }
  }

  /** Recording takes away no other source's entry except by cutting the end. */
  lemma OthersMembers(d: Document, source: Source, e: Entry)
    requires Keyed(d)
    ensures e in Others(d, source) <==> e in d.recordings && e.identity.source != source
  {
    OthersInOrder(d, source);
    var previous := IndexOf(Sources(d.recordings), source);
    if previous.Some? {
      RemoveAtMembers(d.recordings, previous.value);
    }
    if e in Others(d, source) {
      EntrySource(Others(d, source), e);
    } else if e in d.recordings {
      EntrySource(d.recordings, e);
    }
  }

  lemma EntrySource(entries: seq<Entry>, e: Entry)
    requires e in entries
    ensures e.identity.source in Sources(entries) && e.key in Keys(entries)
  {
    var i :| 0 <= i < |entries| && entries[i] == e;
    assert Sources(entries)[i] == e.identity.source && Keys(entries)[i] == e.key;
  }

  lemma RecordIs(d: Document, identity: Identity, position: Position)
    requires RecordAccepts(d, identity, position)
    ensures Record(d, identity, position).recordings ==
      Take([Recorded(d, identity, position)] + Others(d, identity.source), MAX_RECORDINGS)
    ensures Record(d, identity, position).nextKey == d.nextKey + (if identity.source in Sources(d.recordings) then 0 else 1)
  {
  }

  /** Claiming the key first and then putting the entry in front comes to the same. */
  lemma RecordByClaim(d: Document, identity: Identity, position: Position)
    requires RecordAccepts(d, identity, position)
    ensures
      var claimed := Claimed(d, identity.source);
      && KeyClaimed(d, identity.source) == Some(Recorded(d, identity, position).key)
      && Record(d, identity, position) == claimed.(
           recordings := Take([Recorded(d, identity, position)] + claimed.recordings, MAX_RECORDINGS))
  {
  }

  lemma OneEntry(entries: seq<Entry>, i: nat, e: Entry)
    requires Distinct(Sources(entries)) && i < |entries| && e in entries
    requires e.identity.source == entries[i].identity.source
    ensures e == entries[i]
  {
    var j :| 0 <= j < |entries| && entries[j] == e;
    assert Sources(entries)[j] == Sources(entries)[i];
  }

  /** A record is refused exactly when an entry already has just this identity and position, or
      its source is not on the list and the keys are exhausted; a full list does not matter. */
  lemma RefusedExactly(d: Document, identity: Identity, position: Position)
    requires Keyed(d)
    ensures !RecordAccepts(d, identity, position) <==>
      || (exists e :: e in d.recordings && e.identity == identity && e.position == position)
      || (identity.source !in Sources(d.recordings) && d.nextKey == U64_MAX)
    ensures !RecordAccepts(d, identity, position) ==> Record(d, identity, position) == d
  {
    var previous := IndexOf(Sources(d.recordings), identity.source);
    if previous.Some? {
      var stored := d.recordings[previous.value];
      assert stored in d.recordings && stored.identity.source == Sources(d.recordings)[previous.value];
      forall e | e in d.recordings && e.identity == identity ensures e == stored {
        OneEntry(d.recordings, previous.value, e);
      }
    } else {
      forall e | e in d.recordings ensures e.identity != identity {
        EntrySource(d.recordings, e);
      }
    }
  }

  lemma NewKeyUnused(d: Document)
    requires Keyed(d) && d.nextKey < U64_MAX
    ensures NewKey(d.nextKey + 1) !in Keys(d.recordings)
  {
    NewKeyNumber(d.nextKey + 1);
    forall i | 0 <= i < |d.recordings| ensures Keys(d.recordings)[i] != NewKey(d.nextKey + 1) {
      assert KeyIssued(d.recordings[i].key, d.nextKey);
    }
  }

  /** The recorded entry's key: the one its source had, or one no entry has. */
  lemma RecordedKey(d: Document, identity: Identity, position: Position)
    requires Keyed(d) && RecordAccepts(d, identity, position)
    ensures KeyIssued(Recorded(d, identity, position).key, Record(d, identity, position).nextKey)
    ensures Recorded(d, identity, position).key !in Keys(Others(d, identity.source))
    ensures identity.source !in Sources(d.recordings) ==>
      KeyNumber(Recorded(d, identity, position).key) == Some(d.nextKey + 1)
  {
    var previous := IndexOf(Sources(d.recordings), identity.source);
    if previous.Some? {
      ColumnsOfRemoved(d.recordings, previous.value);
      RemoveAtDistinct(Keys(d.recordings), previous.value);
    } else {
      NewKeyNumber(d.nextKey + 1);
      NewKeyUnused(d);
    }
  }

  lemma RecordKeepsOrder(d: Document, identity: Identity, position: Position)
    requires Keyed(d) && RecordAccepts(d, identity, position)
    ensures
      var r := Record(d, identity, position).recordings;
      && Sources(r) == Take([identity.source] + Without(Sources(d.recordings), identity.source), MAX_RECORDINGS)
      && Distinct(Sources(r)) && Distinct(Keys(r))
  {
    var entry, others := Recorded(d, identity, position), Others(d, identity.source);
    RecordIs(d, identity, position);
    RecordedKey(d, identity, position);
    OthersInOrder(d, identity.source);
    SourcesOfCut(entry, others, MAX_RECORDINGS);
    KeysOfCut(entry, others, MAX_RECORDINGS);
    FrontDistinct(Sources(others), identity.source, MAX_RECORDINGS);
    FrontDistinct(Keys(others), entry.key, MAX_RECORDINGS);
  }

  /** An entry after the recorded one was there before. */
  lemma BehindRecorded(d: Document, identity: Identity, position: Position, i: nat)
    requires RecordAccepts(d, identity, position) && i < |Record(d, identity, position).recordings|
    ensures i == 0 ==> Record(d, identity, position).recordings[i] == Recorded(d, identity, position)
    ensures 0 < i ==> exists j :: 0 <= j < |d.recordings| && Record(d, identity, position).recordings[i] == d.recordings[j]
  {
    if 0 < i {
      var previous := IndexOf(Sources(d.recordings), identity.source);
      var j := if previous.Some? && previous.value < i then i else i - 1;
      assert Record(d, identity, position).recordings[i] == d.recordings[j];
    }
  }

  lemma RecordKeepsIssued(d: Document, identity: Identity, position: Position, i: nat)
    requires Keyed(d) && RecordAccepts(d, identity, position) && i < |Record(d, identity, position).recordings|
    ensures KeyIssued(Record(d, identity, position).recordings[i].key, Record(d, identity, position).nextKey)
  {
    BehindRecorded(d, identity, position, i);
    RecordedKey(d, identity, position);
  }

  lemma RecordKeepsKeyed(d: Document, identity: Identity, position: Position)
    requires Keyed(d)
    ensures Keyed(Record(d, identity, position))
  {
    if RecordAccepts(d, identity, position) {
      RecordKeepsOrder(d, identity, position);
      var d' := Record(d, identity, position);
      forall i | 0 <= i < |d'.recordings| ensures KeyIssued(d'.recordings[i].key, d'.nextKey) {
        RecordKeepsIssued(d, identity, position, i);
      }
    }
  }

  /** Recording anything leaves a document of the right form. */
  lemma RecordKeepsFormed(d: Document, identity: Identity, position: Position)
    requires Formed(d)
    ensures Formed(Record(d, identity, position))
  {
    RecordKeepsKeyed(d, identity, position);
    if RecordAccepts(d, identity, position) {
      var r := Record(d, identity, position).recordings;
      forall i | 0 <= i < |r| ensures Utf8Bytes(r[i].key) <= MAX_KEY_BYTES {
        BehindRecorded(d, identity, position, i);
        if IndexOf(Sources(d.recordings), identity.source).None? {
          NewKeyNumber(d.nextKey + 1);
        }
      }
    }
  }

  lemma FrontContents(e: Entry, rest: seq<Entry>, rule: SourceRule)
    ensures ContentsValid([e] + rest, rule) <==> ValidRecord(e.identity, e.position, rule) && ContentsValid(rest, rule)
  {
    var all := [e] + rest;
    assert all[0] == e && forall i :: 0 <= i < |rest| ==> rest[i] == all[i + 1];
  }

  /** After a record the document is valid exactly when what was recorded is, and so is what
      stays behind it: an earlier invalid record spoils it until replaced or cut off. */
  lemma RecordValidIff(d: Document, identity: Identity, position: Position, rule: SourceRule)
    requires Formed(d) && RecordAccepts(d, identity, position)
    ensures Validate(Record(d, identity, position), rule) <==>
      && ValidRecord(identity, position, rule)
      && ContentsValid(Take(Others(d, identity.source), MAX_RECORDINGS - 1), rule)
  {
    var entry, others := Recorded(d, identity, position), Others(d, identity.source);
    ValidParts(Record(d, identity, position), rule);
    RecordKeepsFormed(d, identity, position);
    RecordIs(d, identity, position);
    TakeFront(others, entry, MAX_RECORDINGS);
    FrontContents(entry, Take(others, MAX_RECORDINGS - 1), rule);
  }

  ghost predicate InFront(d: Document, source: Source) {
    d.recordings != [] && d.recordings[0].identity.source == source
  }

  /** A record brings its source to the front exactly when it is accepted, that is when it
      changes something and the keys last, or the source is there already. */
  lemma FrontExactly(d: Document, identity: Identity, position: Position)
    ensures InFront(Record(d, identity, position), identity.source) <==>
      RecordAccepts(d, identity, position) || InFront(d, identity.source)
  {
    if RecordAccepts(d, identity, position) {
      RecordIs(d, identity, position);
    }
  }

  // ---------- runs ----------

  datatype Op =
    | ToggleOp(service: U64)
    | MoveOp(service: U64, position: nat)
    | ObserveOp(service: U64)
    | RecordOp(identity: Identity, progress: Position)

  function Apply(d: Document, op: Op): Document {
    match op
    case ToggleOp(service) => Toggle(d, service)
    case MoveOp(service, position) => Move(d, service, position)
    case ObserveOp(service) => Observe(d, service)
    case RecordOp(identity, position) => Record(d, identity, position)
  }

  function Run(d: Document, ops: seq<Op>): Document
    decreases |ops|
  {
    if ops == [] then d else Run(Apply(d, ops[0]), ops[1..])
  }

  lemma ApplyKeepsFormed(d: Document, op: Op)
    requires Formed(d)
    ensures Formed(Apply(d, op))
  {
    match op
    case ToggleOp(service) => ToggleKeepsValid(d, service, _ => true);
    case MoveOp(service, position) => MoveKeepsValid(d, service, position, _ => true);
    case ObserveOp(service) => ObserveKeepsValid(d, service, _ => true);
    case RecordOp(identity, position) => RecordKeepsFormed(d, identity, position);
  }

  lemma {:induction false} RunKeepsFormed(d: Document, ops: seq<Op>)
    requires Formed(d)
    ensures Formed(Run(d, ops))
    decreases |ops|
  {
    if ops != [] {
      ApplyKeepsFormed(d, ops[0]);
      RunKeepsFormed(Apply(d, ops[0]), ops[1..]);
    }
  }

  predicate Records(op: Op, source: Source) {
    op.RecordOp? && op.identity.source == source
  }

  /** The last record of a source along a run. */
  function LastRecord(ops: seq<Op>, source: Source): (r: Option<Op>)
    ensures r.Some? ==> r.value in ops && Records(r.value, source)
    decreases |ops|
  {
    if ops == [] then None else
    var later := LastRecord(ops[1..], source);
    if later.Some? then later else if Records(ops[0], source) then Some(ops[0]) else None
  }

  /** Only an accepted record changes the recordings. */
  lemma ApplyLeaves(d: Document, op: Op)
    requires !(op.RecordOp? && RecordAccepts(d, op.identity, op.progress))
    ensures Apply(d, op).recordings == d.recordings
  {
  }

  /** A record of a source on the list is refused only if it repeats what is stored. */
  lemma RefusedRepeats(d: Document, identity: Identity, position: Position, e: Entry)
    requires Keyed(d) && !RecordAccepts(d, identity, position) && e in d.recordings && e.identity.source == identity.source
    ensures e.identity == identity && e.position == position
  {
    EntrySource(d.recordings, e);
    var previous := IndexOf(Sources(d.recordings), identity.source).value;
    assert Sources(d.recordings)[previous] == d.recordings[previous].identity.source;
    OneEntry(d.recordings, previous, e);
  }

  lemma ApplyCarries(d: Document, op: Op, e: Entry)
    requires Keyed(d) && e in Apply(d, op).recordings
    ensures
      if Records(op, e.identity.source) then e.identity == op.identity && e.position == op.progress
      else e in d.recordings
  {
    if op.RecordOp? && RecordAccepts(d, op.identity, op.progress) {
      RecordIs(d, op.identity, op.progress);
      OthersMembers(d, op.identity.source, e);
    } else {
      ApplyLeaves(d, op);
      if Records(op, e.identity.source) {
        RefusedRepeats(d, op.identity, op.progress, e);
      }
    }
  }

  /** Every retained entry carries what was last recorded for its source, accepted or not, and
      is unchanged when nothing was. */
  lemma {:induction false} EntryCarriesLast(d: Document, ops: seq<Op>, e: Entry)
    requires Keyed(d) && e in Run(d, ops).recordings
    ensures
      match LastRecord(ops, e.identity.source)
      case Some(op) => e.identity == op.identity && e.position == op.progress
      case None => e in d.recordings
    decreases |ops|
  {
    if ops != [] {
      ApplyKeepsKeyed(d, ops[0]);
      EntryCarriesLast(Apply(d, ops[0]), ops[1..], e);
      if LastRecord(ops[1..], e.identity.source).None? {
        ApplyCarries(d, ops[0], e);
      }
    }
  }

  /** The source was last recorded with something valid, or not at all. */
  predicate LastValid(ops: seq<Op>, source: Source, rule: SourceRule) {
    match LastRecord(ops, source)
    case Some(op) => ValidRecord(op.identity, op.progress, rule)
    case None => true
  }

  lemma EntryValidIff(d: Document, ops: seq<Op>, rule: SourceRule, e: Entry)
    requires Formed(d) && ContentsValid(d.recordings, rule) && e in Run(d, ops).recordings
    ensures ValidRecord(e.identity, e.position, rule) <==> LastValid(ops, e.identity.source, rule)
  {
    EntryCarriesLast(d, ops, e);
    if LastRecord(ops, e.identity.source).None? {
      var i :| 0 <= i < |d.recordings| && d.recordings[i] == e;
    }
  }

  /** What is saved after a run can be loaded again exactly when every source still on the list
      was last recorded with something valid. */
  lemma RunValidIff(d: Document, ops: seq<Op>, rule: SourceRule)
    requires Validate(d, rule)
    ensures Validate(Run(d, ops), rule) <==>
      forall source :: source in Sources(Run(d, ops).recordings) ==> LastValid(ops, source, rule)
  {
    var r := Run(d, ops).recordings;
    ValidParts(d, rule);
    ValidParts(Run(d, ops), rule);
    RunKeepsFormed(d, ops);
    forall i | 0 <= i < |r|
      ensures ValidRecord(r[i].identity, r[i].position, rule) <==> LastValid(ops, Sources(r)[i], rule)
    {
      EntryValidIff(d, ops, rule, r[i]);
    }
    if ContentsValid(r, rule) {
      forall source | source in Sources(r) ensures LastValid(ops, source, rule) {
        var i :| 0 <= i < |r| && Sources(r)[i] == source;
      }
    }
  }

  /** So valid records never stand in the way. */
  lemma RunKeepsValid(d: Document, ops: seq<Op>, rule: SourceRule)
    requires Validate(d, rule)
    requires forall op :: op in ops && op.RecordOp? ==> ValidRecord(op.identity, op.progress, rule)
    ensures Validate(Run(d, ops), rule)
  {
    RunValidIff(d, ops, rule);
  }

  lemma ApplyKeepsKeyed(d: Document, op: Op)
    requires Keyed(d)
    ensures Keyed(Apply(d, op)) && d.nextKey <= Apply(d, op).nextKey
  {
    if op.RecordOp? {
      RecordKeepsKeyed(d, op.identity, op.progress);
    }
  }

  /** Every later entry either carries on a key and source of the earlier document, or has a
      key that had not been issued yet. */
  ghost predicate Continues(d: Document, e: Entry) {
    || (KeyNumber(e.key).Some? && d.nextKey < KeyNumber(e.key).value)
    || (exists i :: 0 <= i < |d.recordings| && d.recordings[i].key == e.key
                    && d.recordings[i].identity.source == e.identity.source)
  }

  lemma ApplyContinues(d: Document, op: Op, e: Entry)
    requires Keyed(d) && e in Apply(d, op).recordings
    ensures Continues(d, e)
  {
    if op.RecordOp? && RecordAccepts(d, op.identity, op.progress) {
      RecordIs(d, op.identity, op.progress);
      RecordedKey(d, op.identity, op.progress);
      OthersMembers(d, op.identity.source, e);
      var entry := Recorded(d, op.identity, op.progress);
      if e == entry && op.identity.source in Sources(d.recordings) {
        var i := IndexOf(Sources(d.recordings), op.identity.source).value;
        assert d.recordings[i].key == e.key;
      }
    }
  }

  lemma {:induction false} RunContinues(d: Document, ops: seq<Op>, e: Entry)
    requires Keyed(d) && e in Run(d, ops).recordings
    ensures Keyed(Run(d, ops)) && Continues(d, e)
    decreases |ops|
  {
    if ops != [] {
      var d' := Apply(d, ops[0]);
      ApplyKeepsKeyed(d, ops[0]);
      RunContinues(d', ops[1..], e);
      if !(KeyNumber(e.key).Some? && d'.nextKey < KeyNumber(e.key).value) {
        var i :| 0 <= i < |d'.recordings| && d'.recordings[i].key == e.key
                 && d'.recordings[i].identity.source == e.identity.source;
        ApplyContinues(d, ops[0], d'.recordings[i]);
      }
    }
  }

  /** Over a whole run a key never denotes two sources, even when its entry was evicted and
      sources were recorded again in between. */
  lemma KeyNamesOneSource(d: Document, ops: seq<Op>, e: Entry, later: Entry)
    requires Keyed(d) && e in d.recordings && later in Run(d, ops).recordings && e.key == later.key
    ensures e.identity.source == later.identity.source
  {
    RunContinues(d, ops, later);
    var j :| 0 <= j < |d.recordings| && d.recordings[j] == e;
    assert KeyIssued(d.recordings[j].key, d.nextKey);
    var i :| 0 <= i < |d.recordings| && d.recordings[i].key == later.key
             && d.recordings[i].identity.source == later.identity.source;
    assert Keys(d.recordings)[i] == Keys(d.recordings)[j];
    assert i == j;
  }

  /** Whether the source stays on the list at every moment of the run. */
  ghost predicate Retained(d: Document, ops: seq<Op>, source: Source)
    decreases |ops|
  {
    source in Sources(d.recordings) && (ops != [] ==> Retained(Apply(d, ops[0]), ops[1..], source))
  }

  function KeyFor(d: Document, source: Source): Option<string> {
    var i := IndexOf(Sources(d.recordings), source);
    if i.Some? then Some(d.recordings[i.value].key) else None
  }

  /** A source keeps its key for as long as it stays on the list. */
  lemma {:induction false} RetainedSourceKeepsKey(d: Document, ops: seq<Op>, source: Source)
    requires Keyed(d) && Retained(d, ops, source)
    ensures KeyFor(Run(d, ops), source) == KeyFor(d, source)
    decreases |ops|
  {
    if ops != [] {
      var d' := Apply(d, ops[0]);
      ApplyKeepsKeyed(d, ops[0]);
      var i := IndexOf(Sources(d'.recordings), source).value;
      StepKeepsKey(d, ops[0], d'.recordings[i]);
      RetainedSourceKeepsKey(d', ops[1..], source);
    }
  }

  lemma KeyAt(d: Document, i: nat)
    requires Keyed(d) && i < |d.recordings|
    ensures KeyFor(d, d.recordings[i].identity.source) == Some(d.recordings[i].key)
  {
    assert Sources(d.recordings)[i] == d.recordings[i].identity.source;
  }

  lemma EntryKey(d: Document, e: Entry)
    requires Keyed(d) && e in d.recordings
    ensures KeyFor(d, e.identity.source) == Some(e.key)
  {
    var i :| 0 <= i < |d.recordings| && d.recordings[i] == e;
    KeyAt(d, i);
  }

  lemma RecordKeepsKey(d: Document, identity: Identity, position: Position, e: Entry)
    requires Keyed(d) && RecordAccepts(d, identity, position) && e in Record(d, identity, position).recordings
    requires e.identity.source in Sources(d.recordings)
    ensures KeyFor(d, e.identity.source) == Some(e.key)
  {
    var r := Record(d, identity, position).recordings;
    var i :| 0 <= i < |r| && r[i] == e;
    BehindRecorded(d, identity, position, i);
    if 0 < i {
      EntryKey(d, e);
    }
  }

  lemma StepKeepsKey(d: Document, op: Op, e: Entry)
    requires Keyed(d) && e in Apply(d, op).recordings && e.identity.source in Sources(d.recordings)
    ensures KeyFor(d, e.identity.source) == Some(e.key)
  {
    if op.RecordOp? && RecordAccepts(d, op.identity, op.progress) {
      RecordKeepsKey(d, op.identity, op.progress, e);
    } else {
      ApplyLeaves(d, op);
      EntryKey(d, e);
    }
  }

  // ---------- most recent first ----------

  /** What a run has recorded, read off its operations alone: the sources, newest first, and how
      many keys that took. */
  datatype Recordings = Recordings(log: seq<Source>, issued: U64)

  /** The sources still on the list: the most recent distinct ones, cut to the limit. */
  function Listed(r: Recordings): seq<Source> {
    Take(MostRecent(r.log), MAX_RECORDINGS)
  }

  /** Whether the last operation says again what was last said of a listed source. */
  predicate Repeats(r: Recordings, before: seq<Op>, op: Op)
    requires op.RecordOp?
  {
    var last := LastRecord(before, op.identity.source);
    op.identity.source in Listed(r) && last.Some? && last.value.identity == op.identity && last.value.progress == op.progress
  }

  function RecordedBy(ops: seq<Op>): Recordings
    decreases |ops|
  {
    if ops == [] then Recordings([], 0) else
    var before, op := ops[..|ops| - 1], ops[|ops| - 1];
    var r := RecordedBy(before);
    AndThen(r, before, op)
  }

  function AndThen(r: Recordings, before: seq<Op>, op: Op): Recordings {
    if !op.RecordOp? || Repeats(r, before, op) then r
    else if op.identity.source in Listed(r) then r.(log := [op.identity.source] + r.log)
    else if r.issued == U64_MAX then r
    else Recordings([op.identity.source] + r.log, r.issued + 1)
  }

  lemma {:induction false} RunLast(d: Document, ops: seq<Op>)
    requires ops != []
    ensures Run(d, ops) == Apply(Run(d, ops[..|ops| - 1]), ops[|ops| - 1])
    decreases |ops|
  {
    if |ops| == 1 {
      assert ops == [ops[0]] && ops[..0] == [];
      RunOne(d, ops[0]);
    } else {
      RunLast(Apply(d, ops[0]), ops[1..]);
      assert ops[1..][..|ops| - 2] == ops[..|ops| - 1][1..];
    }
  }

  lemma RunOne(d: Document, op: Op)
    ensures Run(d, [op]) == Apply(d, op)
  {
    assert Run(Apply(d, op), [op][1..]) == Apply(d, op);
  }

  /** The list and the keys are those of the operations. */
  ghost predicate Matches(d: Document, r: Recordings) {
    Keyed(d) && Sources(d.recordings) == Listed(r) && d.nextKey == r.issued
  }

  lemma EmptyKeyed()
    ensures Keyed(EmptyDocument)
  {
  }

  /** A stored entry is repeated exactly when the operations say so. */
  lemma RepeatsExactly(before: seq<Op>, r: Recordings, op: Op)
    requires op.RecordOp? && Matches(Run(EmptyDocument, before), r)
    ensures Repeats(r, before, op) <==>
      exists e :: e in Run(EmptyDocument, before).recordings && e.identity == op.identity && e.position == op.progress
  {
    var d := Run(EmptyDocument, before);
    EmptyKeyed();
    if op.identity.source in Sources(d.recordings) {
      var i :| 0 <= i < |d.recordings| && Sources(d.recordings)[i] == op.identity.source;
      EntryCarriesLast(EmptyDocument, before, d.recordings[i]);
      assert d.recordings[i] in d.recordings;
    }
    forall e | e in d.recordings && e.identity == op.identity && e.position == op.progress ensures Repeats(r, before, op) {
      EntrySource(d.recordings, e);
      EntryCarriesLast(EmptyDocument, before, e);
    }
  }

  lemma ApplyMatches(d: Document, r: Recordings, op: Op)
    requires Matches(d, r) && op.RecordOp? && RecordAccepts(d, op.identity, op.progress)
    ensures Matches(Apply(d, op), Recordings([op.identity.source] + r.log,
      if op.identity.source in Listed(r) then r.issued else d.nextKey + 1))
  {
    RecordIs(d, op.identity, op.progress);
    RecordKeepsKeyed(d, op.identity, op.progress);
    RecordKeepsOrder(d, op.identity, op.progress);
    MostRecentDistinct(r.log);
    FrontOfCut(MostRecent(r.log), op.identity.source, MAX_RECORDINGS);
    assert ([op.identity.source] + r.log)[1..] == r.log;
  }

  lemma OneMoreMatches(before: seq<Op>, r: Recordings, op: Op)
    requires Matches(Run(EmptyDocument, before), r)
    ensures Matches(Apply(Run(EmptyDocument, before), op), AndThen(r, before, op))
  {
    var d := Run(EmptyDocument, before);
    ApplyKeepsKeyed(d, op);
    if op.RecordOp? {
      RefusedExactly(d, op.identity, op.progress);
      RepeatsExactly(before, r, op);
      if RecordAccepts(d, op.identity, op.progress) {
        ApplyMatches(d, r, op);
      }
    }
  }

  lemma {:induction false} RunMatches(ops: seq<Op>)
    ensures Matches(Run(EmptyDocument, ops), RecordedBy(ops))
    decreases |ops|
  {
    if ops == [] {
      EmptyKeyed();
    } else {
      var before, op := ops[..|ops| - 1], ops[|ops| - 1];
      RunMatches(before);
      RunLast(EmptyDocument, ops);
      OneMoreMatches(before, RecordedBy(before), op);
    }
  }

  /** The recordings are always the distinct sources in most-recently-recorded order, cut to
      the limit: eviction never changes which ones those are, and a new source always gets in. */
  lemma RecordingsAreMostRecent(ops: seq<Op>)
    ensures Sources(Run(EmptyDocument, ops).recordings) == Take(MostRecent(RecordedBy(ops).log), MAX_RECORDINGS)
    ensures Run(EmptyDocument, ops).nextKey == RecordedBy(ops).issued
  {
    RunMatches(ops);
  }

  function ObserveLog(ops: seq<Op>, log: seq<U64>): seq<U64>
    decreases |ops|
  {
    if ops == [] then log
    else ObserveLog(ops[1..], if ops[0].ObserveOp? then [ops[0].service] + log else log)
  }

  lemma {:induction false} RecentFollowsLog(d: Document, ops: seq<Op>, log: seq<U64>)
    requires d.recent == Take(MostRecent(log), MAX_RECENT)
    ensures Run(d, ops).recent == Take(MostRecent(ObserveLog(ops, log)), MAX_RECENT)
    decreases |ops|
  {
    if ops != [] {
      if ops[0].ObserveOp? {
        MostRecentDistinct(log);
        FrontOfCut(MostRecent(log), ops[0].service, MAX_RECENT);
      }
      RecentFollowsLog(Apply(d, ops[0]), ops[1..], if ops[0].ObserveOp? then [ops[0].service] + log else log);
    }
  }

  /** The recent stations are the distinct ones watched, newest first, cut to the limit. */
  lemma RecentAreMostRecent(ops: seq<Op>)
    ensures Run(EmptyDocument, ops).recent == Take(MostRecent(ObserveLog(ops, [])), MAX_RECENT)
  {
    RecentFollowsLog(EmptyDocument, ops, []);
  }

  // ---------- inputs that show the limits ----------

  function RecordingOf(id: U64, startMs: int): Identity {
    Identity(Epgstation("http://server", id, id), None, "title", "", Some(BroadcastHint(1, 1, startMs)))
  }

  const HalfWay := Position(1.0, 2.0)

  lemma RecordingValidIff(id: U64, startMs: int, rule: SourceRule)
    ensures ValidRecord(RecordingOf(id, startMs), HalfWay, rule) <==>
      rule(RecordingOf(id, startMs).source) && 0 < startMs && startMs * 1_000_000 <= 0x7FFF_FFFF_FFFF_FFFF
  {
    AsciiBytes("title");
  }

  lemma RunTwo(d: Document, first: Op, second: Op)
    ensures Run(d, [first]) == Apply(d, first) && Run(d, [first, second]) == Apply(Apply(d, first), second)
  {
    RunOne(d, first);
    RunOne(Apply(d, first), second);
    assert [first, second][1..] == [second];
  }

  lemma RunThree(d: Document, first: Op, second: Op, third: Op)
    ensures Run(d, [first, second, third]) == Apply(Apply(Apply(d, first), second), third)
  {
    assert [first, second, third][1..] == [second, third];
    RunTwo(Apply(d, first), second, third);
  }

  function Halfway(id: U64, startMs: int): Op {
    RecordOp(RecordingOf(id, startMs), HalfWay)
  }

  /** The list after one source was recorded, and then another. */
  lemma TwoRecorded(first: Op, second: Op)
    requires first.RecordOp? && second.RecordOp? && first.identity.source != second.identity.source
    ensures Sources(Run(EmptyDocument, [first]).recordings) == [first.identity.source]
    ensures Sources(Run(EmptyDocument, [first, second]).recordings) == [second.identity.source, first.identity.source]
    ensures Run(EmptyDocument, [first, second]).recordings[1] == Run(EmptyDocument, [first]).recordings[0]
  {
    RunTwo(EmptyDocument, first, second);
    var one := Record(EmptyDocument, first.identity, first.progress);
    assert one.recordings == [Recorded(EmptyDocument, first.identity, first.progress)];
    assert Sources(one.recordings) == [first.identity.source];
    var two := Record(one, second.identity, second.progress);
    assert two.recordings == [Recorded(one, second.identity, second.progress)] + one.recordings;
  }

  lemma EmptyIsValid(rule: SourceRule)
    ensures Validate(EmptyDocument, rule)
  {
    ValidParts(EmptyDocument, rule);
  }

  lemma SpoiledBy(ops: seq<Op>, source: Source, rule: SourceRule)
    requires source in Sources(Run(EmptyDocument, ops).recordings) && !LastValid(ops, source, rule)
    ensures !Validate(Run(EmptyDocument, ops), rule)
  {
    EmptyIsValid(rule);
    RunValidIff(EmptyDocument, ops, rule);
  }

  lemma LastOfTwo(first: Op, second: Op, source: Source)
    requires Records(first, source) && !Records(second, source)
    ensures LastRecord([first], source) == LastRecord([first, second], source) == Some(first)
  {
    assert [first][1..] == [] && [first, second][1..] == [second] && [second][1..] == [];
    assert LastRecord([second], source) == None;
  }

  /** A recording that the server says started at time zero spoils the document, also for
      valid records of other sources after it. */
  lemma RecordCanSpoil(rule: SourceRule)
    ensures !Validate(Run(EmptyDocument, [Halfway(1, 0)]), rule)
    ensures !Validate(Run(EmptyDocument, [Halfway(1, 0), Halfway(2, 1)]), rule)
  {
    var spoil, other := Halfway(1, 0), Halfway(2, 1);
    var source := spoil.identity.source;
    RecordingValidIff(1, 0, rule);
    TwoRecorded(spoil, other);
    LastOfTwo(spoil, other, source);
    assert [source][0] == source && [other.identity.source, source][1] == source;
    SpoiledBy([spoil], source, rule);
    SpoiledBy([spoil, other], source, rule);
  }

  /** Recording it validly repairs the document. */
  lemma RecordCanRepair(rule: SourceRule)
    requires rule(RecordingOf(1, 1).source) && rule(RecordingOf(2, 1).source)
    ensures Validate(Run(EmptyDocument, [Halfway(1, 0), Halfway(2, 1), Halfway(1, 1)]), rule)
  {
    var spoil, other, repair := Halfway(1, 0), Halfway(2, 1), Halfway(1, 1);
    var ops := [spoil, other, repair];
    RecordingValidIff(1, 1, rule);
    RecordingValidIff(2, 1, rule);
    EmptyIsValid(rule);
    forall source ensures LastValid(ops, source, rule) {
      assert ops[1..] == [other, repair] && [other, repair][1..] == [repair] && [repair][1..] == [];
      assert LastRecord([repair], source) == if Records(repair, source) then Some(repair) else None;
    }
    RunValidIff(EmptyDocument, ops, rule);
  }

  /** Recording exactly what is stored, with another source in front, leaves it behind. */
  lemma RepeatStaysBehind()
    ensures
      var first, second := Halfway(1, 1), Halfway(2, 1);
      && Run(EmptyDocument, [first, second, first]) == Run(EmptyDocument, [first, second])
      && !InFront(Run(EmptyDocument, [first, second, first]), first.identity.source)
  {
    var first, second := Halfway(1, 1), Halfway(2, 1);
    TwoRecorded(first, second);
    RunTwo(EmptyDocument, first, second);
    RunThree(EmptyDocument, first, second, first);
    var two := Run(EmptyDocument, [first, second]);
    assert Sources(two.recordings)[0] == second.identity.source && Sources(two.recordings)[1] == first.identity.source;
    assert two.recordings[1].identity == first.identity && two.recordings[1].position == first.progress;
  }

  // ---------- the object ----------

  /** The history in memory and the last snapshot handed to the storage worker. A transient
      history has no worker. */
  class History {
    const rule: SourceRule
    const persistent: bool
    var ready: bool
    var favorites: seq<U64>
    var recent: seq<U64>
    var recordings: seq<Entry>
    var nextKey: U64
    var saved: Option<Document>

    ghost function Now(): Document
      reads this
    {
      Document(favorites, recent, recordings, nextKey)
    }

    /** Whatever has been recorded, the document has the right form once it is loaded. */
    ghost predicate Valid()
      reads this
    {
      ready ==> Formed(Now())
    }

    /** The last snapshot after an operation that saves, or does not. */
    ghost predicate SavedIf(saves: bool, before: Option<Document>)
      reads this
    {
      saved == if saves && persistent then Some(Now()) else before
    }

    constructor Loading(rule: SourceRule)
      ensures Valid() && !ready && saved == None && persistent && this.rule == rule
    {
      this.rule, persistent := rule, true;
      ready, favorites, recent, recordings, nextKey, saved := false, [], [], [], 0, None;
    }

    constructor Transient(rule: SourceRule)
      ensures Valid() && ready && Now() == EmptyDocument && saved == None && !persistent && this.rule == rule
    {
      this.rule, persistent := rule, false;
      ready, favorites, recent, recordings, nextKey, saved := true, [], [], [], 0, None;
    }

    /** A document that loads has passed validation; one that does not leaves an empty history. */
    method Load(document: Option<Document>)
      requires !ready
      modifies this
      ensures Valid() && ready && Validate(Now(), rule) && saved == old(saved)
      ensures Now() ==
        if document.Some? && Validate(document.value, rule) then document.value else EmptyDocument
    {
      EmptyIsValid(rule);
      var loaded := if document.Some? && Validate(document.value, rule) then document.value else EmptyDocument;
      ValidParts(loaded, rule);
      favorites, recent := loaded.favorites, loaded.recent;
      recordings, nextKey := loaded.recordings, loaded.nextKey;
      ready := true;
    }

    method Save()
      modifies this`saved
      ensures SavedIf(ready, old(saved))
    {
      if ready && persistent {
        saved := Some(Document(favorites, recent, recordings, nextKey));
      }
    }

    /** Toggling neither spoils nor repairs the document. */
    method ToggleFavorite(service: U64) returns (changed: bool)
      requires Valid()
      modifies this`favorites, this`saved
      ensures Valid() && (Validate(Now(), rule) <==> Validate(old(Now()), rule))
      ensures changed == (ready && ToggleAccepts(old(Now()), service))
      ensures Now() == if changed then Toggle(old(Now()), service) else old(Now())
      ensures SavedIf(changed, old(saved))
    {
      if !ready {
        return false;
      }
      ToggleKeepsValid(Now(), service, rule);
      changed := SwitchFavorite(service);
      if changed {
        Save();
      }
    }

    method SwitchFavorite(service: U64) returns (changed: bool)
      modifies this`favorites
      ensures changed == ToggleAccepts(old(Now()), service)
      ensures Now() == Toggle(old(Now()), service)
    {
      var index := IndexOf(favorites, service);
      if index.Some? {
        favorites := RemoveAt(favorites, index.value);
      } else {
        if |favorites| == MAX_FAVORITES {
          return false;
        }
        favorites := favorites + [service];
      }
      return true;
    }

    /** Nor does moving. */
    method MoveFavorite(service: U64, position: nat) returns (changed: bool)
      requires Valid()
      modifies this`favorites, this`saved
      ensures Valid() && (Validate(Now(), rule) <==> Validate(old(Now()), rule))
      ensures changed == (ready && MoveAccepts(old(Now()), service, position))
      ensures Now() == if changed then Move(old(Now()), service, position) else old(Now())
      ensures SavedIf(changed, old(saved))
    {
      if !ready {
        return false;
      }
      MoveKeepsValid(Now(), service, position, rule);
      changed := ShiftFavorite(service, position);
      if changed {
        Save();
      }
    }

    method ShiftFavorite(service: U64, position: nat) returns (changed: bool)
      modifies this`favorites
      ensures changed == MoveAccepts(old(Now()), service, position)
      ensures Now() == Move(old(Now()), service, position)
    {
      if position >= |favorites| {
        return false;
      }
      var index := IndexOf(favorites, service);
      if index.None? {
        return false;
      }
      favorites := InsertAt(RemoveAt(favorites, index.value), position, service);
      return true;
    }

    method PutRecent(service: U64)
      modifies this`recent
      ensures Now() == Observe(old(Now()), service)
    {
      recent := Without(recent, service);
      InsertFront(recent, service);
      recent := InsertAt(recent, 0, service);
      recent := Take(recent, MAX_RECENT);
    }

    /** A station has just been watched for long enough. */
    method ObserveQualified(service: U64)
      requires Valid()
      modifies this`recent, this`saved
      ensures Valid() && (Validate(Now(), rule) <==> Validate(old(Now()), rule))
      ensures Now() == if ready then Observe(old(Now()), service) else old(Now())
      ensures SavedIf(ready, old(saved))
    {
      if !ready {
        return;
      }
      ObserveKeepsValid(Now(), service, rule);
      PutRecent(service);
      Save();
    }

    /** Takes the source's entry off the list for its key, or issues the next key. */
    method ClaimKey(source: Source) returns (key: Option<string>)
      modifies this`recordings, this`nextKey
      ensures key == KeyClaimed(old(Now()), source)
      ensures Now() == Claimed(old(Now()), source)
    {
      var previous := IndexOf(Sources(recordings), source);
      if previous.Some? {
        key := Some(recordings[previous.value].key);
        recordings := RemoveAt(recordings, previous.value);
      } else {
        if nextKey == U64_MAX {
          return None;
        }
        nextKey := nextKey + 1;
        key := Some(NewKey(nextKey));
      }
    }

    method PutRecord(identity: Identity, position: Position) returns (changed: bool)
      modifies this`recordings, this`nextKey
      ensures changed == RecordAccepts(old(Now()), identity, position)
      ensures Now() == Record(old(Now()), identity, position)
    {
      ghost var before := Now();
      var previous := IndexOf(Sources(recordings), identity.source);
      if previous.Some? && recordings[previous.value].position == position
         && recordings[previous.value].identity == identity {
        return false;
      }
      var key := ClaimKey(identity.source);
      if key.None? {
        return false;
      }
      RecordByClaim(before, identity, position);
      InsertFront(recordings, Entry(key.value, identity, position));
      recordings := Take(InsertAt(recordings, 0, Entry(key.value, identity, position)), MAX_RECORDINGS);
      return true;
    }

    /** Afterwards the document is valid exactly when what was recorded is and so is everything
        that stays behind it. */
    method RecordProgress(identity: Identity, position: Position) returns (changed: bool)
      requires Valid()
      modifies this`recordings, this`nextKey, this`saved
      ensures Valid()
      ensures changed == (ready && RecordAccepts(old(Now()), identity, position))
      ensures Now() == if ready then Record(old(Now()), identity, position) else old(Now())
      ensures SavedIf(changed, old(saved))
      ensures changed ==> (Validate(Now(), rule) <==>
        && ValidRecord(identity, position, rule)
        && ContentsValid(Take(Others(old(Now()), identity.source), MAX_RECORDINGS - 1), rule))
    {
      if !ready {
        return false;
      }
      ghost var before := Now();
      RecordKeepsFormed(before, identity, position);
      changed := PutRecord(identity, position);
      if changed {
        RecordValidIff(before, identity, position, rule);
        Save();
      }
    }
  }
}
