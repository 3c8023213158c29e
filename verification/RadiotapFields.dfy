/** What the fields of a radiotap header consist of, and so where each of them lies, told
    from the bytes and bits of the header without the size table of the iterator. */
module RadiotapFields {
  import opened Options
  import opened Packets
  import opened RadiotapLayout

  // ----- What a field consists of

  /** How many numbers of eight, four, two bytes and of one byte a field consists of; a
      pair of bytes that is aligned as one counts as one number of two. */
  datatype Parts = Parts(eights: nat, fours: nat, twos: nat, ones: nat)

  /** The fields hardware/rssi/radiotap.cc knows. Number 18 is only reserved there. */
  function PartsOf(i: nat): Parts
    requires i < 23
  {
    match i
    case 0 => Parts(1, 0, 0, 0)   // TSFT
    case 1 => Parts(0, 0, 0, 1)   // FLAGS
    case 2 => Parts(0, 0, 0, 1)   // RATE
    case 3 => Parts(0, 0, 2, 0)   // CHANNEL: frequency, flags
    case 4 => Parts(0, 0, 1, 0)   // FHSS: hop set and pattern
    case 5 => Parts(0, 0, 0, 1)   // DBM_ANTSIGNAL
    case 6 => Parts(0, 0, 0, 1)   // DBM_ANTNOISE
    case 7 => Parts(0, 0, 1, 0)   // LOCK_QUALITY
    case 8 => Parts(0, 0, 1, 0)   // TX_ATTENUATION
    case 9 => Parts(0, 0, 1, 0)   // DB_TX_ATTENUATION
    case 10 => Parts(0, 0, 0, 1)  // DBM_TX_POWER
    case 11 => Parts(0, 0, 0, 1)  // ANTENNA
    case 12 => Parts(0, 0, 0, 1)  // DB_ANTSIGNAL
    case 13 => Parts(0, 0, 0, 1)  // DB_ANTNOISE
    case 14 => Parts(0, 0, 1, 0)  // RX_FLAGS
    case 15 => Parts(0, 0, 1, 0)  // TX_FLAGS
    case 16 => Parts(0, 0, 0, 1)  // RTS_RETRIES
    case 17 => Parts(0, 0, 0, 1)  // DATA_RETRIES
    case 18 => Parts(0, 1, 0, 0)
    case 19 => Parts(0, 0, 0, 3)  // MCS: known, flags, index
    case 20 => Parts(0, 1, 1, 2)  // AMPDU_STATUS: reference, flags, CRC, reserved
    case 21 => Parts(0, 0, 2, 8)  // VHT: known, flags, bandwidth, four users, coding, group, partial AID
    case 22 => Parts(1, 0, 1, 2)  // TIMESTAMP: time, accuracy, unit and position, flags
  }

  /** The length of all parts together. */
  function Length(p: Parts): nat { 8 * p.eights + 4 * p.fours + 2 * p.twos + p.ones }

  /** The length of the widest part. */
  function Widest(p: Parts): (w: nat)
    ensures w in {1, 2, 4, 8}
  {
    if p.eights > 0 then 8 else if p.fours > 0 then 4 else if p.twos > 0 then 2 else 1
  }

  /** A field as long as its parts and aligned for the widest of them. */
  ghost predicate Sized(f: Placed) {
    f.index < 23 && f.size == Length(PartsOf(f.index)) && f.start % Widest(PartsOf(f.index)) == 0
  }

  lemma TableHoldsParts(i: nat)
    requires i < 23
    ensures |RTAP_SIZES| == 23 && RTAP_SIZES[i] == AlignSize(Widest(PartsOf(i)), Length(PartsOf(i)))
  {
  }

  /** Every field of a layout is as long as its parts and aligned for the widest of them. */
  lemma {:induction false} LayoutIsSized(fs: seq<Placed>, at: nat, limit: nat)
    requires Tight(fs, at, limit)
    ensures forall f :: f in fs ==> Sized(f)
  {
    if fs != [] {
      TableHoldsParts(fs[0].index);
      LayoutIsSized(fs[1..], fs[0].start + fs[0].size, limit);
      assert fs == [fs[0]] + fs[1..];
    }
  }

  lemma HeaderIsSized(b: seq<U8>, maxLength: int)
    requires maxLength <= |b| && PayloadStart(b, maxLength).Some?
    ensures forall f :: f in HeaderLayout(b, maxLength).fields ==> Sized(f)
  {
    var start := PayloadStart(b, maxLength).value;
    LayoutIsTight(HeaderItems(b, maxLength), start, Le16(b, 2));
    LayoutIsSized(HeaderLayout(b, maxLength).fields, start, Le16(b, 2));
  }

  // ----- Where the fields of the first presence word lie

  /** Where field `k` starts if what precedes it ends at `end`: at the next multiple of its
      alignment. */
  function StartOf(k: nat, end: nat): (start: nat)
    requires k < 23
    ensures end <= start < end + 8
  {
    AlignUp(end, Widest(PartsOf(k)))
  }

  /** Where field `k` ends, or what precedes it if it is not present. */
  function EndWith(k: nat, present: bool, end: nat): (end': nat)
    requires k < 23
    ensures end <= end'
  {
    if present then StartOf(k, end) + Length(PartsOf(k)) else end
  }

  /** Where the fields of the bits below `k` end, the arguments starting at `start`. */
  function EndOf(word: nat, start: nat, k: nat): nat
    requires k <= 23
  {
    if k == 0 then start else EndWith(k - 1, Bit(word, k - 1), EndOf(word, start, k - 1))
  }

  /** The field of bit `k`, if it is set. */
  function FieldAt(word: nat, start: nat, k: nat): seq<Placed>
    requires k < 23
  {
    if Bit(word, k) then [Placed(k, StartOf(k, EndOf(word, start, k)), Length(PartsOf(k)))] else []
  }

  /** The fields of the bits below `k`. */
  function FieldsBelow(word: nat, start: nat, k: nat): seq<Placed>
    requires k <= 23
  {
    if k == 0 then [] else FieldsBelow(word, start, k - 1) + FieldAt(word, start, k - 1)
  }

  /** A field in front of some items, or none. */
  lemma PlaceKnown(present: bool, items: seq<Item>, at: nat, limit: nat, k: nat)
    requires k < 23
    ensures var all, end := if present then [Field(k)] + items else items, EndWith(k, present, at);
            var f := if present then [Placed(k, StartOf(k, at), Length(PartsOf(k)))] else [];
            && (end <= limit ==> Place(all, at, limit) == Before(f, Place(items, end, limit)))
            && (present && end > limit ==> Place(all, at, limit) == Layout([], Invalid))
  {
    TableHoldsParts(k);
    PlaceField(k, items, at, limit);
    BeforeNone(Place(items, at, limit));
  }

  lemma KnownFirst(words: seq<nat>, k: nat)
    requires words != [] && k < 23
    ensures var rest := ItemsFrom(words, 0, k + 1);
            ItemsFrom(words, 0, k) == if Bit(words[0], k) then [Field(k)] + rest else rest
  {
    ItemsFromNext(words, 0, k);
    var rest := ItemsFrom(words, 0, k + 1);
    assert [] + rest == rest;
  }

  /** What is left to place from bit `k` on. */
  function Rest(words: seq<nat>, start: nat, limit: nat, k: nat): Layout
    requires words != [] && k <= 23
  {
    Place(ItemsFrom(words, 0, k), EndOf(words[0], start, k), limit)
  }

  lemma EndOfNext(word: nat, start: nat, k: nat)
    requires k < 23
    ensures EndOf(word, start, k + 1) == EndWith(k, Bit(word, k), EndOf(word, start, k))
  {
  }

  /** What one bit adds. */
  lemma PlaceBit(words: seq<nat>, start: nat, limit: nat, k: nat)
    requires words != [] && k < 23
    ensures EndOf(words[0], start, k + 1) <= limit ==>
              Rest(words, start, limit, k) == Before(FieldAt(words[0], start, k), Rest(words, start, limit, k + 1))
    ensures Bit(words[0], k) && EndOf(words[0], start, k + 1) > limit ==>
              Rest(words, start, limit, k) == Layout([], Invalid)
  {
    KnownFirst(words, k);
    EndOfNext(words[0], start, k);
    PlaceKnown(Bit(words[0], k), ItemsFrom(words, 0, k + 1), EndOf(words[0], start, k), limit, k);
  }

  lemma BeforeNone(l: Layout)
    ensures Before([], l) == l
  {
    assert [] + l.fields == l.fields;
  }

  lemma BeforeBefore(fs: seq<Placed>, gs: seq<Placed>, l: Layout)
    ensures Before(fs, Before(gs, l)) == Before(fs + gs, l)
  {
    assert fs + (gs + l.fields) == fs + gs + l.fields;
  }

  /** The layout is the fields below bit `k` and then what the rest of the walk yields,
      as long as those fields fit. */
  lemma {:induction false} LayoutBelow(words: seq<nat>, start: nat, limit: nat, k: nat)
    requires words != [] && k <= 23 && EndOf(words[0], start, k) <= limit
    ensures Rest(words, start, limit, 0) == Before(FieldsBelow(words[0], start, k), Rest(words, start, limit, k))
  {
    BeforeNone(Rest(words, start, limit, 0));
    if k > 0 {
      LayoutBelow(words, start, limit, k - 1);
      PlaceBit(words, start, limit, k - 1);
      BeforeBefore(FieldsBelow(words[0], start, k - 1), FieldAt(words[0], start, k - 1), Rest(words, start, limit, k));
    }
  }

  /** The fields of the first presence word below bit `k` come first if they fit; if they do
      and that of bit `k` does not, they are all there is. */
  ghost predicate LiesWhereBitsSay(b: seq<U8>, maxLength: int, fields: seq<Placed>, stop: Code, k: nat)
    requires maxLength <= |b| && PayloadStart(b, maxLength).Some? && k <= 23
  {
    var word, start, limit := Le32(b, 4), PayloadStart(b, maxLength).value, Le16(b, 2);
    EndOf(word, start, k) <= limit ==>
      && FieldsBelow(word, start, k) <= fields
      && (k < 23 && limit < EndOf(word, start, k + 1) ==> fields == FieldsBelow(word, start, k) && stop == Invalid)
  }

  lemma FirstWordLayout(b: seq<U8>, maxLength: int, k: nat)
    requires maxLength <= |b| && PayloadStart(b, maxLength).Some? && k <= 23
    ensures var l := HeaderLayout(b, maxLength); LiesWhereBitsSay(b, maxLength, l.fields, l.stop, k)
  {
    var words, start, limit := PresenceWords(b, maxLength), PayloadStart(b, maxLength).value, Le16(b, 2);
    PresenceWordsAreChained(b, maxLength);
    assert HeaderItems(b, maxLength) == ItemsFrom(words, 0, 0);
    if EndOf(words[0], start, k) <= limit {
      LayoutBelow(words, start, limit, k);
      if k < 23 { PlaceBit(words, start, limit, k); }
    }
  }

  lemma EndOfBytes(k: nat, end: nat)
    requires k < 23 && PartsOf(k) == Parts(0, 0, 0, 1)
    ensures EndWith(k, true, end) == end + 1
  {
  }

  lemma EndOfPairs(k: nat, end: nat, n: nat)
    requires k < 23 && PartsOf(k) == Parts(0, 0, n, 0) && n > 0
    ensures EndWith(k, true, end) == end + end % 2 + 2 * n
  {
  }

  /** CHANNEL and FHSS behind `end`. */
  lemma EndOfChannel(c: bool, h: bool, end: nat)
    ensures EndWith(4, h, EndWith(3, c, end))
         == end + (if c || h then end % 2 else 0) + (if c then 4 else 0) + (if h then 2 else 0)
  {
    EndOfPairs(3, end, 2);
    EndOfPairs(4, EndWith(3, c, end), 1);
  }

  /** TSFT, FLAGS and RATE behind the presence word. */
  lemma EndOfRate(t: bool, f: bool, r: bool)
    ensures EndWith(2, r, EndWith(1, f, EndWith(0, t, 8)))
         == 8 + (if t then 8 else 0) + (if f then 1 else 0) + (if r then 1 else 0)
  {
    var one := EndWith(0, t, 8);
    EndOfBytes(1, one);
    EndOfBytes(2, EndWith(1, f, one));
  }

  /** Five bits in a row. */
  lemma EndOfFive(word: nat, start: nat, k: nat)
    requires k + 5 <= 23
    ensures EndOf(word, start, k + 5) ==
              EndWith(k + 4, Bit(word, k + 4), EndWith(k + 3, Bit(word, k + 3), EndWith(k + 2, Bit(word, k + 2),
                EndWith(k + 1, Bit(word, k + 1), EndWith(k, Bit(word, k), EndOf(word, start, k))))))
  {
    EndOfNext(word, start, k);
    EndOfNext(word, start, k + 1);
    EndOfNext(word, start, k + 2);
    EndOfNext(word, start, k + 3);
    EndOfNext(word, start, k + 4);
  }

  /** Where field 5 starts in a header of one presence word: behind an even number of bytes
      if CHANNEL or FHSS is there, and else as close as FLAGS and RATE let it. */
  function SignalAt(t: bool, f: bool, r: bool, c: bool, h: bool): nat {
    8 + (if t then 8 else 0)
    + (if c || h then if f || r then 2 else 0 else (if f then 1 else 0) + (if r then 1 else 0))
    + (if c then 4 else 0) + (if h then 2 else 0)
  }

  lemma EndOfSignal(t: bool, f: bool, r: bool, c: bool, h: bool)
    ensures EndWith(4, h, EndWith(3, c, EndWith(2, r, EndWith(1, f, EndWith(0, t, 8))))) == SignalAt(t, f, r, c, h)
  {
    EndOfRate(t, f, r);
    EndOfChannel(c, h, EndWith(2, r, EndWith(1, f, EndWith(0, t, 8))));
  }

  lemma FieldBelow(word: nat, start: nat, k: nat)
    requires k < 23 && Bit(word, k)
    ensures Placed(k, StartOf(k, EndOf(word, start, k)), Length(PartsOf(k))) in FieldsBelow(word, start, k + 1)
  {
    assert FieldsBelow(word, start, k + 1) == FieldsBelow(word, start, k) + FieldAt(word, start, k);
  }

  /** A field of the first presence word is found where the fields before it end, if it fits. */
  lemma FieldIsFound(b: seq<U8>, maxLength: int, k: nat)
    requires maxLength <= |b| && PayloadStart(b, maxLength).Some? && k < 23 && Bit(Le32(b, 4), k)
    ensures var at := StartOf(k, EndOf(Le32(b, 4), PayloadStart(b, maxLength).value, k));
            at + Length(PartsOf(k)) <= Le16(b, 2) ==>
              Placed(k, at, Length(PartsOf(k))) in HeaderLayout(b, maxLength).fields
  {
    var word, start := Le32(b, 4), PayloadStart(b, maxLength).value;
    FieldBelow(word, start, k);
    EndOfNext(word, start, k);
    FirstWordLayout(b, maxLength, k + 1);
  }

  /** For every combination of the fields before it. */
  lemma SignalLiesAt(word: nat, k: nat)
    requires k == 5
    ensures PartsOf(k) == Parts(0, 0, 0, 1)
    ensures StartOf(k, EndOf(word, 8, k))
         == SignalAt(Bit(word, 0), Bit(word, 1), Bit(word, 2), Bit(word, 3), Bit(word, 4))
  {
    EndOfFive(word, 8, k - 5);
    EndOfSignal(Bit(word, 0), Bit(word, 1), Bit(word, 2), Bit(word, 3), Bit(word, 4));
  }

  /** In a header whose stated length is less than its own, the bits from `k` on find either
      something too long, a known field or bit 29, or nothing before an unknown field. */
  ghost predicate TooLong(word: nat, k: nat) {
    || (exists j :: k <= j < 23 && Bit(word, j))
    || (k <= 29 && Bit(word, 29) && forall j :: k <= j < 29 ==> !Bit(word, j))
  }

  lemma {:induction false} ShortHeaderFrom(words: seq<nat>, at: nat, limit: nat, k: nat)
    requires |words| == 1 && !Bit(words[0], 30) && !Bit(words[0], 31) && at > limit && k <= 31
    ensures Place(ItemsFrom(words, 0, k), at, limit) == Layout([], if TooLong(words[0], k) then Invalid else NoEntry)
    decreases 31 - k
  {
    if k == 31 {
      ItemsFromExt(words, 0);
    } else {
      ItemsFromNext(words, 0, k);
      var rest := ItemsFrom(words, 0, k + 1);
      if Bit(words[0], k) {
        assert ([ItemAt(k)] + rest)[0] == ItemAt(k);
        if k < 23 { TableHoldsParts(k); }
      } else {
        assert [] + rest == rest;
        ShortHeaderFrom(words, at, limit, k + 1);
        assert TooLong(words[0], k) <==> TooLong(words[0], k + 1);
      }
    }
  }

  /** A header may state a length below 8, its own; it has no fields then, and no more than
      one presence word. */
  lemma ShortHeader(b: seq<U8>, maxLength: int)
    requires maxLength <= |b| && PayloadStart(b, maxLength).Some? && NoVendor(PresenceWords(b, maxLength))
    requires Le16(b, 2) < PayloadStart(b, maxLength).value
    ensures HeaderLayout(b, maxLength) == Layout([], if TooLong(Le32(b, 4), 0) then Invalid else NoEntry)
  {
    var words := PresenceWords(b, maxLength);
    PresenceWordsAreChained(b, maxLength);
    assert Words(b, 8, 8) == [];
    assert HeaderItems(b, maxLength) == ItemsFrom(words, 0, 0) && words[0] in words;
    ShortHeaderFrom(words, 8, Le16(b, 2), 0);
  }

  // ----- Bytes and bits

  /** Bit `k` of a number written as a byte and the rest. */
  lemma {:induction false} BitOfJoin(low: nat, high: nat, n: nat, k: nat)
    requires low < Pow2(n)
    ensures Bit(low + Pow2(n) * high, k) <==> if k < n then Bit(low, k) else Bit(high, k - n)
    decreases n
  {
    if n > 0 {
      var x := low + Pow2(n) * high;
      assert Pow2(n) * high == 2 * (Pow2(n - 1) * high);
      assert x / 2 == low / 2 + Pow2(n - 1) * high && x % 2 == low % 2;
      if k > 0 { BitOfJoin(low / 2, high, n - 1, k - 1); }
    }
  }

  function Pow2(n: nat): (p: nat)
    ensures p > 0
  {
    if n == 0 then 1 else 2 * Pow2(n - 1)
  }

  /** Bit `k` of a presence word is bit `k % 8` of its byte `k / 8`. */
  lemma BitsOfWord(b: seq<U8>, at: nat, k: nat)
    requires at + 4 <= |b| && k < 32
    ensures Bit(Le32(b, at), k) <==> Bit(b[at + k / 8], k % 8)
  {
    var top: nat := b[at + 3];
    var two := b[at + 2] + 0x100 * top;
    var three := b[at + 1] + 0x100 * two;
    assert Pow2(8) == 256;
    BitOfJoin(b[at], three, 8, k);
    if k >= 8 { BitOfJoin(b[at + 1], two, 8, k - 8); }
    if k >= 16 { BitOfJoin(b[at + 2], top, 8, k - 16); }
  }

  lemma TopBit(x: U8)
    ensures Bit(x, 7) <==> x >= 128
  {
    assert Pow2(7) == 128;
    BitOfJoin(x % 128, x / 128, 7, 7);
  }

  /** The byte that holds bit 31 of the `i`-th word from `at`. */
  function TopByte(b: seq<U8>, at: nat, i: nat): U8
    requires at + 4 * i + 4 <= |b|
  {
    b[at + 4 * i + 3]
  }

  lemma ExtendedByte(b: seq<U8>, at: nat)
    requires at + 4 <= |b|
    ensures Extended(Le32(b, at)) <==> b[at + 3] >= 128
  {
    BitsOfWord(b, at, 31);
    TopBit(b[at + 3]);
  }

  /** Bit 31 is set in the first `n` words from `at`. */
  ghost predicate AllExtended(b: seq<U8>, at: nat, n: nat)
    requires at + 4 * n <= |b|
  {
    forall i: nat :: i < n ==> TopByte(b, at, i) >= 128
  }

  lemma AllExtendedFirst(b: seq<U8>, at: nat, n: nat)
    requires 0 < n && at + 4 * n <= |b|
    ensures AllExtended(b, at, n) <==> TopByte(b, at, 0) >= 128 && AllExtended(b, at + 4, n - 1)
  {
    var next := at + 4;
    if AllExtended(b, at, n) {
      forall i: nat | i < n - 1 ensures TopByte(b, next, i) >= 128 { assert TopByte(b, at, i + 1) >= 128; }
    }
    if TopByte(b, at, 0) >= 128 && AllExtended(b, next, n - 1) {
      forall i: nat | 0 < i < n ensures TopByte(b, at, i) >= 128 { assert TopByte(b, next, i - 1) >= 128; }
    }
  }

  /** A chain ends after its first word without the bit, if that lies within the limit. */
  lemma {:induction false} ChainEndsAt(b: seq<U8>, at: nat, limit: nat, n: nat)
    requires limit <= |b|
    ensures ChainEnd(b, at, limit) == Some(at + 4 * n + 4) <==>
            at + 4 * n + 4 <= limit && AllExtended(b, at, n) && TopByte(b, at, n) < 128
    decreases n
  {
    if at + 4 <= limit {
      ExtendedByte(b, at);
      if n > 0 {
        ChainEndsAt(b, at + 4, limit, n - 1);
        if at + 4 * n + 4 <= limit { AllExtendedFirst(b, at, n); }
      }
    }
  }

  /** Which headers are accepted, told from their bytes: version 0, no longer than the
      buffer, and the presence words, if there is more than one, all within the length. */
  lemma WhenAccepted(b: seq<U8>, maxLength: int, n: nat)
    requires maxLength <= |b|
    ensures PayloadStart(b, maxLength) == Some(8 + 4 * n) <==>
            && 8 <= maxLength && b[0] == 0 && b[2] as int + 256 * b[3] as int <= maxLength
            && (n > 0 ==> 8 + 4 * n <= b[2] as int + 256 * b[3] as int)
            && AllExtended(b, 4, n) && TopByte(b, 4, n) < 128
  {
    if 8 <= maxLength && Le16(b, 2) <= maxLength {
      ExtendedByte(b, 4);
      if n > 0 {
        ChainEndsAt(b, 8, Le16(b, 2), n - 1);
        if 8 + 4 * n <= Le16(b, 2) { AllExtendedFirst(b, 4, n); }
      }
    }
  }

  lemma SameLowBits(b: seq<U8>)
    requires 8 <= |b|
    ensures forall k {:trigger Bit(b[4], k)} :: 0 <= k < 6 ==> (Bit(Le32(b, 4), k) <==> Bit(b[4], k))
  {
    forall k {:trigger Bit(b[4], k)} | 0 <= k < 6 ensures Bit(Le32(b, 4), k) <==> Bit(b[4], k) {
      BitsOfWord(b, 4, k);
    }
  }

  /** The signal strength in a header of one presence word: for every combination of the
      fields before it, the byte a reader is shown. */
  lemma SignalIsFound(b: seq<U8>, maxLength: int)
    requires maxLength <= |b| && PayloadStart(b, maxLength) == Some(8) && Bit(b[4], 5)
    ensures var at := SignalAt(Bit(b[4], 0), Bit(b[4], 1), Bit(b[4], 2), Bit(b[4], 3), Bit(b[4], 4));
            at < Le16(b, 2) ==> Placed(5, at, 1) in HeaderLayout(b, maxLength).fields
  {
    var k := 5;
    SameLowBits(b);
    SignalLiesAt(Le32(b, 4), k);
    FieldIsFound(b, maxLength, k);
  }
}
