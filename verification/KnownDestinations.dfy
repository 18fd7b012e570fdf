/**
 The legacy binary file of known destinations: a magic number, a count, and one
 variable-length record per destination, in whatever order the table is visited.

 Timestamps are opaque 8-byte values. A file without the magic number is another
 format, which is not part of this model.
 */
module KnownDestinations {
  import opened Basics

  type Stamp = s: seq<byte> | |s| == 8 witness seq(8, i => 0)
  type PacketHash = s: seq<byte> | |s| == 32 witness seq(32, i => 0)
  type PublicKey = s: seq<byte> | |s| == 64 witness seq(64, i => 0)

  datatype Known = Known(
    timestamp: Stamp, packetHash: PacketHash, publicKey: PublicKey, appData: Option<seq<byte>>, retained: bool)

  type Table = map<Hash, Known>

  datatype Error = NotLegacy | TooShort | TruncatedEntry | TruncatedAppData | TruncatedRetained


  const MAGIC: seq<byte> := [0x52, 0x4E, 0x53, 0x03]
  const FIXED: nat := 125

  // ---------------------------------------------------------------------
  // Writing
  // ---------------------------------------------------------------------

  function EncodeAppData(appData: Option<seq<byte>>): seq<byte> {
    match appData
    case Some(data) => [1] + LittleEndian32(|data|) + data
    case None => [0] + LittleEndian32(0)
  }

  function FixedPart(hash: Hash, k: Known): seq<byte> {
    hash + k.timestamp + k.packetHash + k.publicKey
  }

  function Flag(b: bool): seq<byte> {
    [if b then 1 else 0]
  }

  function EncodeEntry(hash: Hash, k: Known): seq<byte> {
    FixedPart(hash, k) + EncodeAppData(k.appData) + Flag(k.retained)
  }

  function EncodeEntries(t: Table, order: seq<Hash>): seq<byte>
    requires forall i :: 0 <= i < |order| ==> order[i] in t
  {
    if order == [] then []
    else EncodeEntry(order[0], t[order[0]]) + EncodeEntries(t, order[1..])
  }

  function Encode(t: Table, order: seq<Hash>): seq<byte>
    requires forall i :: 0 <= i < |order| ==> order[i] in t
  {
    MAGIC + LittleEndian32(|t|) + EncodeEntries(t, order)
  }

  // A visiting order of a table: every key once.
  ghost predicate Visits(t: Table, order: seq<Hash>) {
    && (forall i :: 0 <= i < |order| ==> order[i] in t)
    && (forall i, j :: 0 <= i < j < |order| ==> order[i] != order[j])
    && (forall hash :: hash in t ==> hash in order)
  }

  lemma {:induction false} EncodeEntriesAppend(t: Table, order: seq<Hash>, n: nat)
    requires n < |order| && forall i :: 0 <= i < |order| ==> order[i] in t
    ensures EncodeEntries(t, order[..n + 1]) == EncodeEntries(t, order[..n]) + EncodeEntry(order[n], t[order[n]])
  {
    hide EncodeEntry;
    if n == 0 {
      assert order[..1] == [order[0]] && order[..0] == [];
      assert EncodeEntries(t, [order[0]]) == EncodeEntry(order[0], t[order[0]]) + EncodeEntries(t, []);
    } else {
      EncodeEntriesAppend(t, order[1..], n - 1);
      assert order[..n + 1][1..] == order[1..][..n];
      assert order[..n][1..] == order[1..][..n - 1];
    }
  }

  method SerializeEntry(hash: Hash, k: Known) returns (entry: seq<byte>)
    ensures entry == EncodeEntry(hash, k)
  {
    entry := hash;
    entry := entry + k.timestamp;
    entry := entry + k.packetHash;
    entry := entry + k.publicKey;
    match k.appData {
      case Some(data) => entry := entry + ([1] + LittleEndian32(|data|) + data);
      case None => entry := entry + ([0] + LittleEndian32(0));
    }
    entry := entry + [if k.retained then 1 else 0];
  }

  method SerializeLegacy(t: Table, order: seq<Hash>) returns (buf: seq<byte>)
    requires Visits(t, order)
    ensures buf == Encode(t, order)
  {
    hide EncodeEntry;
    buf := MAGIC;
    buf := buf + LittleEndian32(|t|);
    for n := 0 to |order|
      invariant buf == MAGIC + LittleEndian32(|t|) + EncodeEntries(t, order[..n])
    {
      var entry := SerializeEntry(order[n], t[order[n]]);
      EncodeEntriesAppend(t, order, n);
      buf := buf + entry;
    }
    assert order[..|order|] == order;
  }

  // ---------------------------------------------------------------------
  // Reading
  // ---------------------------------------------------------------------

  datatype Parsed = Parsed(hash: Hash, known: Known, rest: seq<byte>)

  // The record at the front of the remaining bytes.
  function ParseEntry(s: seq<byte>): Result<Parsed, Error> {
    if |s| < FIXED then Err(TruncatedEntry)
    else
      var length := FromLittleEndian32(s[121..125]);
      var tail := s[FIXED..];
      if s[120] == 1 && |tail| < length then Err(TruncatedAppData)
      else
        var appData := if s[120] == 1 then Some(tail[..length]) else None;
        var after := if s[120] == 1 then tail[length..] else tail;
        if |after| < 1 then Err(TruncatedRetained)
        else Ok(Parsed(s[..16], Known(s[16..24], s[24..56], s[56..120], appData, after[0] != 0), after[1..]))
  }

  function ParseEntries(s: seq<byte>, count: nat, table: Table): Result<Table, Error>
    decreases count
  {
    if count == 0 then Ok(table)
    else
      match ParseEntry(s)
      case Err(e) => Err(e)
      case Ok(p) => ParseEntries(p.rest, count - 1, table[p.hash := p.known])
  }

  function Decode(data: seq<byte>): Result<Table, Error> {
    if !(MAGIC <= data) then Err(NotLegacy)
    else
      var body := data[4..];
      if |body| < 4 then Err(TooShort)
      else ParseEntries(body[4..], FromLittleEndian32(body[..4]), map[])
  }

  // The end of the app data of the record `s` at position `at` does not fit a
  // machine word.
  predicate Overflows(s: seq<byte>, at: nat, word: nat) {
    |s| >= FIXED && s[120] == 1 && at + FIXED + FromLittleEndian32(s[121..125]) >= word
  }

  predicate EntriesWithin(s: seq<byte>, at: nat, count: nat, word: nat)
    decreases count
  {
    count > 0 ==>
      && !Overflows(s, at, word)
      && (ParseEntry(s).Ok? ==>
            var rest := ParseEntry(s).value.rest;
            |rest| <= |s| && EntriesWithin(rest, at + |s| - |rest|, count - 1, word))
  }

  // No record the parser comes to overflows.
  predicate Within(data: seq<byte>, word: nat) {
    MAGIC <= data && |data| >= 8 ==> EntriesWithin(data[8..], 4, FromLittleEndian32(data[4..8]), word)
  }

  // One record at `pos`: the bytes after it start at `next`. Positions are machine
  // words; an end that wraps lies before its start, where no slice exists, and
  // `None` is the panic this ends in.
  method DeserializeEntry(data: seq<byte>, pos: nat, word: nat) returns (r: Option<Result<Parsed, Error>>, next: nat)
    requires pos <= |data| && 2 * |data| < word && U32 <= word
    ensures r.None? <==> Overflows(data[pos..], pos, word)
    ensures r.Some? ==> r.value == ParseEntry(data[pos..])
    ensures r.Some? && r.value.Ok? ==> pos <= next <= |data| && r.value.value.rest == data[next..]
  {
    ghost var s := data[pos..];
    next := pos;
    if pos + FIXED > |data| {
      return Some(Err(TruncatedEntry)), pos;
    }
    var hash: Hash := data[next..next + 16];
    next := next + 16;
    var timestamp: Stamp := data[next..next + 8];
    next := next + 8;
    var packetHash: PacketHash := data[next..next + 32];
    next := next + 32;
    var publicKey: PublicKey := data[next..next + 64];
    next := next + 64;
    var hasAppData := data[next];
    next := next + 1;
    var length := FromLittleEndian32(data[next..next + 4]);
    assert data[next..next + 4] == s[121..125];
    next := next + 4;
    assert s[FIXED..] == data[next..];
    var appData := None;
    if hasAppData == 1 {
      var end := WordSum(next, length, word);
      if end > |data| {
        return Some(Err(TruncatedAppData)), pos;
      }
      if end < next {
        return None, pos;
      }
      appData := Some(data[next..end]);
      assert data[next..][..length] == data[next..end] && data[next..][length..] == data[end..];
      next := end;
    }
    if next + 1 > |data| {
      return Some(Err(TruncatedRetained)), pos;
    }
    var retained := data[next] != 0;
    assert data[next..][1..] == data[next + 1..];
    next := next + 1;
    assert hash == s[..16] && timestamp == s[16..24] && packetHash == s[24..56] && publicKey == s[56..120];
    r := Some(Ok(Parsed(hash, Known(timestamp, packetHash, publicKey, appData, retained), data[next..])));
  }

  function WordSum(a: nat, b: nat, word: nat): (sum: nat)
    requires a < word && b < word
    ensures if a + b < word then sum == a + b else sum + word == a + b && sum < a
  {
    if a + b < word then a + b else a + b - word
  }

  /** The parser returns what the format says, unless it comes to a record whose
      app data ends beyond the machine word; on exactly those inputs it panics. */
  method Deserialize(input: seq<byte>, word: nat) returns (r: Option<Result<Table, Error>>)
    requires 2 * |input| < word && U32 <= word
    ensures r.None? <==> !Within(input, word)
    ensures r.Some? ==> r.value == Decode(input)
  {
    hide ParseEntry, Overflows;
    if !(MAGIC <= input) {
      return Some(Err(NotLegacy));
    }
    var data := input[4..];
    if |data| < 4 {
      return Some(Err(TooShort));
    }
    var count := FromLittleEndian32(data[..4]);
    assert data[..4] == input[4..8] && data[4..] == input[8..];
    var table: Table := map[];
    var pos, n := 4, 0;
    while n < count
      invariant 0 <= n <= count && 4 <= pos <= |data|
      invariant ParseEntries(data[pos..], count - n, table) == Decode(input)
      invariant EntriesWithin(data[pos..], pos, count - n, word) <==> Within(input, word)
      decreases count - n
    {
      var entry, next := DeserializeEntry(data, pos, word);
      if entry.None? {
        return None;
      }
      if entry.value.Err? {
        return Some(Err(entry.value.error));
      }
      table := table[entry.value.value.hash := entry.value.value.known];
      pos, n := next, n + 1;
    }
    return Some(Ok(table));
  }

  // ---------------------------------------------------------------------
  // Machine words
  // ---------------------------------------------------------------------

  lemma ParseShortens(s: seq<byte>)
    requires ParseEntry(s).Ok?
    ensures |ParseEntry(s).value.rest| <= |s|
  {
  }

  lemma {:induction false} EntriesFit(s: seq<byte>, at: nat, count: nat, word: nat)
    requires at + |s| + U32 <= word
    ensures EntriesWithin(s, at, count, word)
    decreases count
  {
    if count > 0 && ParseEntry(s).Ok? {
      ParseShortens(s);
      var rest := ParseEntry(s).value.rest;
      EntriesFit(rest, at + |s| - |rest|, count - 1, word);
    }
  }

  /** With 64-bit words the parser never panics, whatever the input: no slice is
      2^63 bytes long. */
  lemma WideWordsSuffice(data: seq<byte>)
    requires |data| < 0x8000_0000_0000_0000
    ensures Within(data, 0x1_0000_0000_0000_0000)
  {
    if MAGIC <= data && |data| >= 8 {
      EntriesFit(data[8..], 4, FromLittleEndian32(data[4..8]), 0x1_0000_0000_0000_0000);
    }
  }

  lemma {:induction false} OverflowIsTruncated(s: seq<byte>, at: nat, count: nat, word: nat, acc: Table)
    requires at + |s| < word && !EntriesWithin(s, at, count, word)
    ensures ParseEntries(s, count, acc) == Err(TruncatedAppData)
    decreases count
  {
    if ParseEntry(s).Ok? {
      ParseShortens(s);
      var p := ParseEntry(s).value;
      OverflowIsTruncated(p.rest, at + |s| - |p.rest|, count - 1, word, acc[p.hash := p.known]);
    }
  }

  /** With any word a panic takes the place of a truncation error, so no file the
      format accepts can cause one. */
  lemma PanicIsTruncation(data: seq<byte>, word: nat)
    requires |data| < word && !Within(data, word)
    ensures Decode(data) == Err(TruncatedAppData)
  {
    hide ParseEntries, EntriesWithin;
    assert data[4..][4..] == data[8..] && data[4..][..4] == data[4..8];
    OverflowIsTruncated(data[8..], 4, FromLittleEndian32(data[4..8]), word, map[]);
  }

  /** With 32-bit words a short file suffices. */
  lemma NarrowWordsCanPanic() returns (data: seq<byte>)
    ensures |data| == 133 && !Within(data, U32)
  {
    var record := seq(120, i => 0) + [1, 255, 255, 255, 255];
    data := MAGIC + [1, 0, 0, 0] + record;
    assert data[..4] == MAGIC && data[4..8] == [1, 0, 0, 0] && data[8..] == record;
    assert record[121..125] == [255, 255, 255, 255];
    assert Overflows(record, 4, U32);
  }

  /** A record is read exactly if all of it is there, and each error names the first
      part that is not: the fixed fields, the app data, the closing flag. */
  lemma ParseEntryIff(s: seq<byte>)
    ensures var r := ParseEntry(s);
            var app := if |s| >= FIXED && s[120] == 1 then FromLittleEndian32(s[121..125]) else 0;
            && (r == Err(TruncatedEntry) <==> |s| < FIXED)
            && (r == Err(TruncatedAppData) <==> FIXED <= |s| < FIXED + app)
            && (r == Err(TruncatedRetained) <==> |s| == FIXED + app)
            && (r.Ok? <==> |s| > FIXED + app)
            && (r.Ok? ==> r.value.rest == s[FIXED + app + 1..])
  {
  }

  /** Files of another format and headers cut short are told apart. */
  lemma DecodeHeader(data: seq<byte>)
    ensures Decode(data) == Err(NotLegacy) <==> |data| < 4 || data[..4] != MAGIC
    ensures |data| >= 4 && data[..4] == MAGIC && |data| < 8 ==> Decode(data) == Err(TooShort)
    ensures |data| >= 8 && data[..4] == MAGIC && FromLittleEndian32(data[4..8]) == 0 ==> Decode(data) == Ok(map[])
  {
    if |data| >= 8 && MAGIC <= data {
      assert data[4..][..4] == data[4..8];
      NeverNotLegacy(data[4..][4..], FromLittleEndian32(data[4..8]), map[]);
    }
  }

  lemma {:induction false} NeverNotLegacy(s: seq<byte>, count: nat, acc: Table)
    ensures ParseEntries(s, count, acc) != Err(NotLegacy) && ParseEntries(s, count, acc) != Err(TooShort)
    decreases count
  {
    if count > 0 && ParseEntry(s).Ok? {
      var p := ParseEntry(s).value;
      NeverNotLegacy(p.rest, count - 1, acc[p.hash := p.known]);
    }
  }

  // ---------------------------------------------------------------------
  // Round trip
  // ---------------------------------------------------------------------

  predicate Fits(k: Known) {
    k.appData.Some? ==> |k.appData.value| < U32
  }

  lemma FixedSlices(hash: Hash, k: Known, flag: byte, length: seq<byte>, tail: seq<byte>)
    requires |length| == 4
    ensures var s := FixedPart(hash, k) + ([flag] + length + tail);
            && |s| == FIXED + |tail| && s[..16] == hash && s[16..24] == k.timestamp && s[24..56] == k.packetHash
            && s[56..120] == k.publicKey && s[120] == flag && s[121..125] == length && s[FIXED..] == tail
  {
    var f, rest := FixedPart(hash, k), [flag] + length + tail;
    assert |f| == 120 && f[..16] == hash && f[16..24] == k.timestamp && f[24..56] == k.packetHash && f[56..120] == k.publicKey;
    assert rest[0] == flag && rest[1..5] == length && rest[5..] == tail;
    SlicesOfSum(f, rest);
  }

  lemma SlicesOfSum(f: seq<byte>, rest: seq<byte>)
    requires |f| == 120 && |rest| >= 5
    ensures var s := f + rest;
            && s[..16] == f[..16] && s[16..24] == f[16..24] && s[24..56] == f[24..56] && s[56..120] == f[56..120]
            && s[120] == rest[0] && s[121..125] == rest[1..5] && s[FIXED..] == rest[5..]
  {
  }

  lemma ParseEncodedEntry(hash: Hash, k: Known, rest: seq<byte>)
    requires Fits(k)
    ensures ParseEntry(EncodeEntry(hash, k) + rest) == Ok(Parsed(hash, k, rest))
  {
    match k.appData
    case Some(data) => ParseWithAppData(hash, k, data, rest);
    case None => ParseWithoutAppData(hash, k, rest);
  }

  lemma Regroup(f: seq<byte>, head: seq<byte>, data: seq<byte>, flag: seq<byte>, rest: seq<byte>)
    ensures f + (head + data) + flag + rest == f + (head + (data + (flag + rest)))
  {
  }

  lemma ParseWithAppData(hash: Hash, k: Known, data: seq<byte>, rest: seq<byte>)
    requires k.appData == Some(data) && |data| < U32
    ensures ParseEntry(EncodeEntry(hash, k) + rest) == Ok(Parsed(hash, k, rest))
  {
    hide FixedPart, LittleEndian32;
    var after := Flag(k.retained) + rest;
    var tail, head := data + after, [1] + LittleEndian32(|data|);
    LittleEndianRoundTrip(|data|);
    FixedSlices(hash, k, 1, LittleEndian32(|data|), tail);
    Regroup(FixedPart(hash, k), head, data, Flag(k.retained), rest);
    hide EncodeEntry;
    assert tail[..|data|] == data && tail[|data|..] == after && after[1..] == rest;
  }

  lemma ParseWithoutAppData(hash: Hash, k: Known, rest: seq<byte>)
    requires k.appData.None?
    ensures ParseEntry(EncodeEntry(hash, k) + rest) == Ok(Parsed(hash, k, rest))
  {
    hide FixedPart, LittleEndian32;
    var tail := Flag(k.retained) + rest;
    var head := [0] + LittleEndian32(0);
    FixedSlices(hash, k, 0, LittleEndian32(0), tail);
    Regroup(FixedPart(hash, k), head, [], Flag(k.retained), rest);
    assert head + [] == head && [] + tail == tail;
    hide EncodeEntry;
    assert tail[1..] == rest;
  }

  // The part of a table visited by an order.
  function Picked(t: Table, order: seq<Hash>): Table
    requires forall i :: 0 <= i < |order| ==> order[i] in t
  {
    map hash | hash in order :: t[hash]
  }

  lemma {:induction false} ParseEncodedEntries(t: Table, order: seq<Hash>, acc: Table)
    requires forall i :: 0 <= i < |order| ==> order[i] in t && Fits(t[order[i]])
    ensures ParseEntries(EncodeEntries(t, order), |order|, acc) == Ok(acc + Picked(t, order))
    decreases |order|
  {
    hide EncodeEntry, ParseEntry;
    if order == [] {
      assert acc + Picked(t, []) == acc;
    } else {
      var hash, rest := order[0], order[1..];
      ParseEncodedEntry(hash, t[hash], EncodeEntries(t, rest));
      ParseEncodedEntries(t, rest, acc[hash := t[hash]]);
      assert acc[hash := t[hash]] + Picked(t, rest) == acc + Picked(t, order);
    }
  }

  // What any successful parse can contain, whatever the input.
  lemma {:induction false} ParseBounds(s: seq<byte>, count: nat, acc: Table)
    requires forall hash :: hash in acc ==> Fits(acc[hash])
    ensures ParseEntries(s, count, acc).Ok? ==>
              var t := ParseEntries(s, count, acc).value;
              |t| <= |acc| + count && forall hash :: hash in t ==> Fits(t[hash])
    decreases count
  {
    if count > 0 && ParseEntry(s).Ok? {
      var p := ParseEntry(s).value;
      var more := acc[p.hash := p.known];
      assert more.Keys == acc.Keys + {p.hash};
      ParseBounds(p.rest, count - 1, more);
    }
  }

  lemma {:induction false} OrderLength(keys: set<Hash>, order: seq<Hash>)
    requires forall i, j :: 0 <= i < j < |order| ==> order[i] != order[j]
    requires forall i :: 0 <= i < |order| ==> order[i] in keys
    requires forall hash :: hash in keys ==> hash in order
    ensures |order| == |keys|
    decreases |order|
  {
    if order == [] {
      assert keys == {};
    } else {
      OrderLength(keys - {order[0]}, order[1..]);
    }
  }

  lemma DecodeEncoded(t: Table, order: seq<Hash>)
    requires Visits(t, order)
    ensures Decode(Encode(t, order)) == ParseEntries(EncodeEntries(t, order), |t| % U32, map[])
  {
    hide EncodeEntries, ParseEntries, LittleEndian32;
    var body := LittleEndian32(|t|) + EncodeEntries(t, order);
    assert Encode(t, order) == MAGIC + body && (MAGIC + body)[4..] == body;
    assert body[..4] == LittleEndian32(|t|) && body[4..] == EncodeEntries(t, order);
    LittleEndianRoundTrip(|t|);
  }

  lemma PickedAll(t: Table, order: seq<Hash>)
    requires Visits(t, order)
    ensures |order| == |t| && map[] + Picked(t, order) == t
  {
    OrderLength(t.Keys, order);
  }

  predicate AllFit(t: Table) {
    |t| < U32 && forall hash :: hash in t ==> Fits(t[hash])
  }

  lemma ReadBack(t: Table, order: seq<Hash>)
    requires forall i :: 0 <= i < |order| ==> order[i] in t && Fits(t[order[i]])
    requires |order| == |t| < U32
    ensures ParseEntries(EncodeEntries(t, order), |t| % U32, map[]) == Ok(map[] + Picked(t, order))
  {
    hide EncodeEntries, ParseEntries, Picked;
    ParseEncodedEntries(t, order, map[]);
  }

  lemma RoundTrip(t: Table, order: seq<Hash>)
    requires Visits(t, order) && AllFit(t)
    ensures Decode(Encode(t, order)) == Ok(t)
  {
    hide Decode, Encode, EncodeEntries, ParseEntries, Picked;
    PickedAll(t, order);
    DecodeEncoded(t, order);
    ReadBack(t, order);
  }

  // No parse of any input yields a table outside the bounds.
  lemma DecodedFits(data: seq<byte>)
    ensures Decode(data).Ok? ==> AllFit(Decode(data).value)
  {
    hide ParseEntries;
    if MAGIC <= data && |data| >= 8 {
      ParseBounds(data[4..][4..], FromLittleEndian32(data[4..][..4]), map[]);
    }
  }

  /** For every table and every visiting order, reading back what was written
      gives the same table, `None` and empty app data kept apart, exactly when the
      table has fewer than 2^32 entries and no app data of 2^32 bytes or more. */
  lemma RoundTripIff(t: Table, order: seq<Hash>)
    requires Visits(t, order)
    ensures Decode(Encode(t, order)) == Ok(t) <==>
            |t| < U32 && forall hash :: hash in t && t[hash].appData.Some? ==> |t[hash].appData.value| < U32
  {
    hide Decode, Encode;
    DecodedFits(Encode(t, order));
    if AllFit(t) {
      RoundTrip(t, order);
    }
  }
}
