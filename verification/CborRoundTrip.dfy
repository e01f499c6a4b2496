/** One value, one encoding: the reader inverts the encoder, and accepts nothing else. */
module CborRoundTrip {
  import opened Basics
  import opened Unicode
  import opened Cbor

  lemma Assoc(a: Bytes, b: Bytes, c: Bytes)
    ensures (a + b) + c == a + (b + c)
  {
  }

  // Reading an encoding.

  /** Reading dispatches on the head that was written. */
  lemma HeadedReads(major: nat, n: nat, body: Bytes, rest: Bytes)
    requires major < 8 && n <= MAX_SAFE
    ensures var s := Head(major, n) + body + rest;
            s != [] && s[0] / 32 == major && Argument(s[0] % 32, s[1..]) == Done(n, body + rest)
  {
    Assoc(Head(major, n), body, rest);
    HeadReads(major, n, body + rest);
  }

  lemma SimpleReads(b: Byte, rest: Bytes)
    ensures ([b] + rest)[0] == b && ([b] + rest)[1..] == rest
  {
  }

  lemma {:induction false} ItemReads(v: Value, depth: nat, rest: Bytes)
    requires Encodable(v, depth)
    ensures ReadItem(Encode(v, depth) + rest, depth) == Done(v, rest)
    decreases v, 3
  {
    match v
    case Null => SimpleReads(0xf6, rest);
    case Bool(b) => SimpleReads(if b then 0xf5 else 0xf4, rest);
    case Int(n) => if n >= 0 { HeadReads(0, n, rest); } else { HeadReads(1, -1 - n, rest); }
    case Blob(b) =>
      HeadedReads(2, |b|, b, rest);
      Split(b, rest);
    case Str(t) =>
      HeadedReads(3, |t|, t, rest);
      Split(t, rest);
    case Array(items) => ArrayReads(items, depth, rest);
    case Map(entries) => MapReads(entries, depth, rest);
  }

  lemma Split(a: Bytes, rest: Bytes)
    ensures (a + rest)[..|a|] == a && (a + rest)[|a|..] == rest
  {
  }

  lemma {:induction false} ArrayReads(items: seq<Value>, depth: nat, rest: Bytes)
    requires Encodable(Array(items), depth)
    ensures ReadItem(Encode(Array(items), depth) + rest, depth) == Done(Array(items), rest)
    decreases items, 2
  {
    HeadedReads(4, |items|, EncodeItems(items, depth + 1), rest);
    ItemsRead(items, depth + 1, rest);
  }

  lemma {:induction false} MapReads(entries: seq<Entry>, depth: nat, rest: Bytes)
    requires Encodable(Map(entries), depth)
    ensures ReadItem(Encode(Map(entries), depth) + rest, depth) == Done(Map(entries), rest)
    decreases entries, 3
  {
    var body := EncodeEntries(entries, depth + 1);
    HeadedReads(5, |entries|, body, rest);
    assert [] + entries == entries;
    EntriesRead(entries, [], depth + 1, rest);
    MapItem(Head(5, |entries|) + body + rest, depth, |entries|, body + rest);
  }

  /** What a map head leads to. */
  lemma MapItem(s: Bytes, depth: nat, n: nat, body: Bytes)
    requires depth <= MAX_DEPTH && s != [] && s[0] / 32 == 5 && Argument(s[0] % 32, s[1..]) == Done(n, body)
    requires ReadEntries(body, n, depth + 1, []).Done?
    ensures ReadItem(s, depth) ==
      Done(Map(ReadEntries(body, n, depth + 1, []).value), ReadEntries(body, n, depth + 1, []).rest)
  {
  }

  lemma {:induction false} ItemsRead(items: seq<Value>, depth: nat, rest: Bytes)
    requires EncodableItems(items, depth)
    ensures ReadItems(EncodeItems(items, depth) + rest, |items|, depth) == Done(items, rest)
    decreases items, 1
  {
    if items == [] {
      assert EncodeItems(items, depth) + rest == rest;
    } else {
      Assoc(Encode(items[0], depth), EncodeItems(items[1..], depth), rest);
      ItemReads(items[0], depth, EncodeItems(items[1..], depth) + rest);
      ItemsRead(items[1..], depth, rest);
      assert [items[0]] + items[1..] == items;
    }
  }

  lemma {:induction false} EntryReads(e: Entry, before: seq<Entry>, depth: nat, rest: Bytes)
    requires IsKey(e.key) && Encodable(e.key, depth) && Encodable(e.value, depth) && !HasKey(before, e.key)
    ensures ReadEntry(EncodeEntry(e, depth) + rest, depth, before) == Done(e, rest)
    decreases e, 1
  {
    Assoc(Encode(e.key, depth), Encode(e.value, depth), rest);
    ItemReads(e.key, depth, Encode(e.value, depth) + rest);
    ItemReads(e.value, depth, rest);
  }

  lemma {:induction false} EntriesRead(entries: seq<Entry>, before: seq<Entry>, depth: nat, rest: Bytes)
    requires EncodableEntries(entries, depth) && DistinctKeys(before + entries)
    ensures ReadEntries(EncodeEntries(entries, depth) + rest, |entries|, depth, before) == Done(before + entries, rest)
    decreases entries, 2
  {
    if entries == [] {
      assert EncodeEntries(entries, depth) + rest == rest && before + entries == before;
    } else {
      NewKey(before, entries);
      Assoc(EncodeEntry(entries[0], depth), EncodeEntries(entries[1..], depth), rest);
      EntryReads(entries[0], before, depth, EncodeEntries(entries[1..], depth) + rest);
      assert before + [entries[0]] + entries[1..] == before + entries;
      EntriesRead(entries[1..], before + [entries[0]], depth, rest);
    }
  }

  lemma NewKey(before: seq<Entry>, entries: seq<Entry>)
    requires entries != [] && DistinctKeys(before + entries)
    ensures !HasKey(before, entries[0].key)
  {
    var all := before + entries;
    assert all[|before|] == entries[0];
    assert forall i :: 0 <= i < |before| ==> all[i] == before[i];
  }

  // Whatever is read is the encoding of what was read.

  lemma {:induction false} ReadIsEncoding(s: Bytes, depth: nat)
    requires ReadItem(s, depth).Done? && s[0] / 32 != 6
    ensures var r := ReadItem(s, depth);
            Encodable(r.value, depth) && s == Encode(r.value, depth) + r.rest
    decreases |s|, 0
  {
    if s[0] / 32 == 7 {
      assert s == [s[0]] + s[1..];
    } else {
      ReadIsHead(s);
      var a := Argument(s[0] % 32, s[1..]);
      var r := ReadItem(s, depth);
      ArgumentShrinks(s[0] % 32, s[1..]);
      match s[0] / 32
      case 0 =>
      case 1 =>
      case 2 => BlobIsEncoding(s, a.value, a.rest, 2);
      case 3 => BlobIsEncoding(s, a.value, a.rest, 3);
      case 4 =>
        ItemsAreEncoding(a.rest, a.value, depth + 1);
        var items := r.value.items;
        assert s == Head(4, |items|) + (EncodeItems(items, depth + 1) + r.rest);
        Assoc(Head(4, |items|), EncodeItems(items, depth + 1), r.rest);
      case 5 =>
        EntriesAreEncoding(a.rest, a.value, depth + 1, []);
        var entries := r.value.entries;
        assert entries[0..] == entries;
        assert s == Head(5, |entries|) + (EncodeEntries(entries, depth + 1) + r.rest);
        Assoc(Head(5, |entries|), EncodeEntries(entries, depth + 1), r.rest);
      case _ => assert false;
    }
  }

  lemma BlobIsEncoding(s: Bytes, n: nat, body: Bytes, major: nat)
    requires major < 8 && n <= MAX_SAFE && s == Head(major, n) + body && n <= |body|
    ensures s == Head(major, |body[..n]|) + body[..n] + body[n..]
  {
    assert body == body[..n] + body[n..];
    Assoc(Head(major, n), body[..n], body[n..]);
  }

  /** Nothing below the outermost item is a tag. */
  lemma InnerIsUntagged(s: Bytes, depth: nat)
    requires depth > 0 && ReadItem(s, depth).Done?
    ensures s[0] / 32 != 6
  {
  }

  lemma {:induction false} ItemsAreEncoding(s: Bytes, n: nat, depth: nat)
    requires depth > 0 && ReadItems(s, n, depth).Done?
    ensures var r := ReadItems(s, n, depth);
            |r.value| == n && EncodableItems(r.value, depth) && s == EncodeItems(r.value, depth) + r.rest
    decreases |s|, 1, n
  {
    if n == 0 {
      assert s == [] + s;
    } else {
      var item := ReadItem(s, depth);
      InnerIsUntagged(s, depth);
      ReadIsEncoding(s, depth);
      ItemsAreEncoding(item.rest, n - 1, depth);
      var others := ReadItems(item.rest, n - 1, depth);
      var all := [item.value] + others.value;
      assert all[1..] == others.value;
      Assoc(Encode(item.value, depth), EncodeItems(others.value, depth), others.rest);
    }
  }

  lemma {:induction false} EntryIsEncoding(s: Bytes, depth: nat, before: seq<Entry>)
    requires depth > 0 && ReadEntry(s, depth, before).Done?
    ensures var r := ReadEntry(s, depth, before);
            && IsKey(r.value.key) && !HasKey(before, r.value.key)
            && Encodable(r.value.key, depth) && Encodable(r.value.value, depth)
            && s == EncodeEntry(r.value, depth) + r.rest
    decreases |s|, 1
  {
    var key := ReadItem(s, depth);
    InnerIsUntagged(s, depth);
    ReadIsEncoding(s, depth);
    var value := ReadItem(key.rest, depth);
    InnerIsUntagged(key.rest, depth);
    ReadIsEncoding(key.rest, depth);
    Assoc(Encode(key.value, depth), Encode(value.value, depth), value.rest);
  }

  lemma DistinctGrows(before: seq<Entry>, e: Entry)
    requires DistinctKeys(before) && !HasKey(before, e.key)
    ensures DistinctKeys(before + [e])
  {
  }

  /** Entries read after `before` extend it, keys still distinct. */
  lemma {:induction false} EntriesAreEncoding(s: Bytes, n: nat, depth: nat, before: seq<Entry>)
    requires depth > 0 && ReadEntries(s, n, depth, before).Done? && DistinctKeys(before)
    ensures var r := ReadEntries(s, n, depth, before);
            && |r.value| == |before| + n && before <= r.value && DistinctKeys(r.value)
            && EncodableEntries(r.value[|before|..], depth)
            && s == EncodeEntries(r.value[|before|..], depth) + r.rest
    decreases |s|, 2, n
  {
    if n == 0 {
      assert before[|before|..] == [];
      assert s == [] + s;
    } else {
      var entry := ReadEntry(s, depth, before);
      EntryIsEncoding(s, depth, before);
      DistinctGrows(before, entry.value);
      var before' := before + [entry.value];
      EntriesAreEncoding(entry.rest, n - 1, depth, before');
      var r := ReadEntries(entry.rest, n - 1, depth, before');
      var added := r.value[|before|..];
      assert added[0] == entry.value && added[1..] == r.value[|before'|..];
      assert before == before'[..|before|];
      Assoc(EncodeEntry(entry.value, depth), EncodeEntries(added[1..], depth), r.rest);
    }
  }

  // Whole inputs.

  /** Decoding inverts encoding for every value within depth 16. */
  lemma DecodeInvertsEncode(v: Value)
    requires Encodable(v, 0)
    ensures DecodeCbor(Encode(v, 0)) == Some(v)
  {
    ItemReads(v, 0, []);
    assert Encode(v, 0) + [] == Encode(v, 0);
  }

  /** An untagged input is accepted exactly when it is the encoding of the value it decodes to. */
  lemma OnlyEncodingsDecode(s: Bytes, v: Value)
    requires s == [] || s[0] / 32 != 6
    ensures DecodeCbor(s) == Some(v) <==> Encodable(v, 0) && s == Encode(v, 0)
  {
    if DecodeCbor(s) == Some(v) {
      ReadIsEncoding(s, 0);
      assert Encode(v, 0) + [] == Encode(v, 0);
    }
    if Encodable(v, 0) && s == Encode(v, 0) { DecodeInvertsEncode(v); }
  }

  /** A tagged input is the one COSE_Sign1 head before an untagged item read one level down. */
  lemma TaggedInput(s: Bytes)
    requires s != [] && s[0] / 32 == 6 && DecodeCbor(s).Some?
    ensures s[0] == 0xd2
    ensures ReadItem(s[1..], 1) == Done(DecodeCbor(s).value, [])
    ensures Encodable(DecodeCbor(s).value, 1) && s == [0xd2] + Encode(DecodeCbor(s).value, 1)
  {
    ReadIsHead(s);
    var a := Argument(s[0] % 32, s[1..]);
    assert Head(6, COSE_SIGN1_TAG) == [0xd2];
    assert s == [0xd2] + a.rest && s[1..] == a.rest;
    InnerIsUntagged(a.rest, 1);
    ReadIsEncoding(a.rest, 1);
    assert Encode(DecodeCbor(s).value, 1) + [] == Encode(DecodeCbor(s).value, 1);
  }

  /** No head makes the reader produce more items than there are bytes, however many it declares. */
  lemma DeclaredItemsNeedBytes(s: Bytes, n: nat, depth: nat)
    requires n > |s|
    ensures ReadItems(s, n, depth).Fail? && ReadEntries(s, n, depth, []).Fail?
  {
  }

  // The indefinite root map.

  lemma EncodingHasNoBreak(v: Value, depth: nat)
    requires Encodable(v, depth)
    ensures Encode(v, depth) != [] && Encode(v, depth)[0] != BREAK
  {
  }

  lemma {:induction false} BreakReads(entries: seq<Entry>, before: seq<Entry>, rest: Bytes)
    requires EncodableEntries(entries, 1) && DistinctKeys(before + entries)
    requires |before| + |entries| <= MAX_INDEFINITE_ROOT_MAP_ENTRIES
    ensures ReadToBreak(EncodeEntries(entries, 1) + ([BREAK] + rest), before) == Done(before + entries, rest)
    decreases |entries|
  {
    var tail := [BREAK] + rest;
    if entries == [] {
      assert EncodeEntries(entries, 1) + tail == tail && before + entries == before;
      assert tail[1..] == rest;
    } else {
      var e := entries[0];
      NewKey(before, entries);
      var more := EncodeEntries(entries[1..], 1) + tail;
      var s := EncodeEntries(entries, 1) + tail;
      Assoc(EncodeEntry(e, 1), EncodeEntries(entries[1..], 1), tail);
      Assoc(Encode(e.key, 1), Encode(e.value, 1), more);
      EncodingHasNoBreak(e.key, 1);
      EncodingHasNoBreak(e.value, 1);
      assert s[0] == Encode(e.key, 1)[0];
      assert (Encode(e.value, 1) + more)[0] == Encode(e.value, 1)[0];
      ItemReads(e.key, 1, Encode(e.value, 1) + more);
      ItemReads(e.value, 1, more);
      assert before + [e] + entries[1..] == before + entries;
      BreakReads(entries[1..], before + [e], rest);
    }
  }

  lemma {:induction false} BreakIsEncoding(s: Bytes, before: seq<Entry>)
    requires ReadToBreak(s, before).Done? && DistinctKeys(before)
    ensures var r := ReadToBreak(s, before);
            && before <= r.value && DistinctKeys(r.value)
            && (|before| <= MAX_INDEFINITE_ROOT_MAP_ENTRIES ==> |r.value| <= MAX_INDEFINITE_ROOT_MAP_ENTRIES)
            && EncodableEntries(r.value[|before|..], 1)
            && s == EncodeEntries(r.value[|before|..], 1) + ([BREAK] + r.rest)
    decreases |s|
  {
    if s != [] && s[0] == BREAK {
      assert before[|before|..] == [];
      assert s == [BREAK] + s[1..];
    } else {
      assert ReadEntry(s, 1, before).Done?;
      var entry := ReadEntry(s, 1, before);
      EntryIsEncoding(s, 1, before);
      DistinctGrows(before, entry.value);
      var before' := before + [entry.value];
      BreakIsEncoding(entry.rest, before');
      var r := ReadToBreak(entry.rest, before');
      var added := r.value[|before|..];
      assert added[0] == entry.value && added[1..] == r.value[|before'|..];
      assert before == before'[..|before|];
      Assoc(EncodeEntry(entry.value, 1), EncodeEntries(added[1..], 1), [BREAK] + r.rest);
    }
  }

  /** What frames `entries` as an indefinite root map. */
  predicate Frames(s: Bytes, entries: seq<Entry>) {
    && |entries| <= MAX_INDEFINITE_ROOT_MAP_ENTRIES
    && Encodable(Map(entries), 0)
    && s == [0xbf] + EncodeEntries(entries, 1) + [BREAK]
  }

  lemma FramedRootReads(s: Bytes, entries: seq<Entry>)
    requires Frames(s, entries)
    ensures DecodeAwsNitroAttestationCbor(s) == Some(Map(entries))
  {
    assert [] + entries == entries && [BREAK] + [] == [BREAK];
    BreakReads(entries, [], []);
    assert s[1..] == EncodeEntries(entries, 1) + [BREAK];
  }

  lemma ReadRootIsFramed(s: Bytes, entries: seq<Entry>)
    requires s != [] && s[0] == 0xbf && DecodeAwsNitroAttestationCbor(s) == Some(Map(entries))
    ensures Frames(s, entries)
  {
    BreakIsEncoding(s[1..], []);
    assert entries[0..] == entries && [BREAK] + [] == [BREAK];
    assert s == [0xbf] + s[1..];
    Assoc([0xbf], EncodeEntries(entries, 1), [BREAK]);
  }

  /**
   The Nitro entry point accepts an indefinite root map exactly when it frames at
   most 32 entries, and gives the map those entries make under a definite head.
   */
  lemma IndefiniteRootIsItsDefiniteMap(s: Bytes, entries: seq<Entry>)
    requires s != [] && s[0] == 0xbf
    ensures DecodeAwsNitroAttestationCbor(s) == Some(Map(entries)) <==> Frames(s, entries)
    ensures Frames(s, entries) ==>
      DecodeCbor(Head(5, |entries|) + EncodeEntries(entries, 1)) == Some(Map(entries))
  {
    if DecodeAwsNitroAttestationCbor(s) == Some(Map(entries)) { ReadRootIsFramed(s, entries); }
    if Frames(s, entries) {
      FramedRootReads(s, entries);
      DecodeInvertsEncode(Map(entries));
    }
  }

  /** On every other input the two entry points agree. */
  lemma EntryPointsAgree(s: Bytes)
    requires s == [] || s[0] != 0xbf
    ensures DecodeAwsNitroAttestationCbor(s) == DecodeCbor(s)
  {
  }
}
