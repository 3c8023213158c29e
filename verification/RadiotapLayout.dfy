/** What a radiotap header of hardware/rssi/radiotap.cc says: the presence words, the fields
    they announce, and where each of those lies. */
module RadiotapLayout {
  import opened Options
  import opened Packets

  const RADIOTAP_HEADER := 8
  const RADIOTAP_NAMESPACE := 29
  const VENDOR_NAMESPACE := 30
  const EXT := 31

  /** 0, -ENOENT and -EINVAL. */
  datatype Code = Ok | NoEntry | Invalid

  /** The 4-bit fields `align:4, size:4`. */
  type U4 = x: nat | x < 16

  datatype AlignSize = AlignSize(align: U4, size: U4)

  /** `rtap_namespace_sizes`. */
  const RTAP_SIZES: seq<AlignSize> := [
    AlignSize(8, 8), AlignSize(1, 1), AlignSize(1, 1), AlignSize(2, 4), AlignSize(2, 2), AlignSize(1, 1),
    AlignSize(1, 1), AlignSize(2, 2), AlignSize(2, 2), AlignSize(2, 2), AlignSize(1, 1), AlignSize(1, 1),
    AlignSize(1, 1), AlignSize(1, 1), AlignSize(2, 2), AlignSize(2, 2), AlignSize(1, 1), AlignSize(1, 1),
    AlignSize(4, 4), AlignSize(1, 3), AlignSize(4, 8), AlignSize(2, 12), AlignSize(8, 12)
  ]

  /** A vendor namespace the caller registered; `n_bits` is the length of its table. */
  datatype Namespace = Namespace(sizes: seq<AlignSize>, oui: nat, subns: nat)

  datatype Current = Standard | Vendor(ns: Namespace) | Unknown

  function Le16(b: seq<U8>, at: nat): nat
    requires at + 2 <= |b|
  {
    b[at] as nat + 0x100 * b[at + 1] as nat
  }

  function Le32(b: seq<U8>, at: nat): nat
    requires at + 4 <= |b|
  {
    b[at] as nat + 0x100 * b[at + 1] as nat + 0x1_0000 * b[at + 2] as nat + 0x100_0000 * b[at + 3] as nat
  }

  function Oui(b: seq<U8>, at: nat): nat
    requires at + 3 <= |b|
  {
    0x1_0000 * b[at] as nat + 0x100 * b[at + 1] as nat + b[at + 2] as nat
  }

  /** Bit `k` of a word. */
  predicate Bit(word: nat, k: nat) { if k == 0 then word % 2 == 1 else Bit(word / 2, k - 1) }

  predicate Extended(word: nat) { Bit(word, EXT) }

  /** `a & b`, looking at `k` bits. */
  function And(a: nat, b: nat, k: nat): nat {
    if k == 0 then 0 else (if a % 2 == 1 && b % 2 == 1 then 1 else 0) + 2 * And(a / 2, b / 2, k - 1)
  }

  lemma AndIsSmall(a: nat, b: nat, k: nat)
    ensures And(a, b, k) <= b
  {
  }

  lemma AndWithZero(a: nat, k: nat)
    ensures And(a, 0, k) == 0
  {
  }

  /** One more mask bit set at the bottom keeps one more bit of the number. */
  lemma AndKeepsBit(a: nat, b: nat, k: nat)
    requires k > 0
    ensures And(a, 2 * b + 1, k) == a % 2 + 2 * And(a / 2, b, k - 1)
  {
  }

  lemma AndOne(a: nat, k: nat)
    requires k >= 1
    ensures And(a, 1, k) == a % 2
  {
    AndKeepsBit(a, 0, k);
    AndWithZero(a / 2, k - 1);
  }

  lemma AndThree(a: nat, k: nat)
    requires k >= 2
    ensures And(a, 3, k) == a % 4
  {
    AndKeepsBit(a, 1, k);
    AndOne(a / 2, k - 1);
  }

  lemma AndSeven(a: nat, k: nat)
    requires k >= 3
    ensures And(a, 7, k) == a % 8
  {
    AndThree(a / 2, k - 1);
    AndKeepsBit(a, 3, k);
    LowBits(a);
  }

  lemma LowBits(a: nat)
    ensures a % 8 == a % 2 + 2 * (a / 2 % 4)
  {
  }

  /** Masking with one less than a power of two is the remainder. */
  lemma AndIsModulo(a: nat, align: nat, k: nat)
    requires align in {1, 2, 4, 8} && k >= 3
    ensures And(a, align - 1, k) == a % align
  {
    match align
    case 1 => AndWithZero(a, k);
    case 2 => AndOne(a, k);
    case 4 => AndThree(a, k);
    case 8 => AndSeven(a, k);
  }

  // ----- The chain of presence words

  /** The offset just after the last presence word, reading the chain from `at`; none if
      it claims to go on past the header's length. */
  function ChainEnd(b: seq<U8>, at: nat, limit: nat): (end: Option<nat>)
    requires limit <= |b|
    ensures end.Some? ==> at + 4 <= end.value <= limit && (end.value - at) % 4 == 0
    decreases limit - at
  {
    if at + 4 > limit then None
    else if Extended(Le32(b, at)) then ChainEnd(b, at + 4, limit)
    else Some(at + 4)
  }

  /** The words from `at` up to `end`. */
  function Words(b: seq<U8>, at: nat, end: nat): seq<nat>
    requires end <= |b|
    decreases end - at
  {
    if at + 4 > end then [] else [Le32(b, at)] + Words(b, at + 4, end)
  }

  /** What `init` accepts, and where the arguments then start. */
  function PayloadStart(b: seq<U8>, maxLength: int): (start: Option<nat>)
    requires maxLength <= |b|
    ensures start.Some? ==> RADIOTAP_HEADER <= start.value <= |b|
  {
    if maxLength < RADIOTAP_HEADER || b[0] != 0 || maxLength < Le16(b, 2) then None
    else if Extended(Le32(b, 4)) then ChainEnd(b, RADIOTAP_HEADER, Le16(b, 2))
    else Some(RADIOTAP_HEADER)
  }

  // ----- The layout a plain header describes

  /** A set presence bit: a field, a namespace or extension marker, a vendor namespace. */
  datatype Item = Field(index: nat) | Marker | VendorMark

  function ItemAt(index: nat): Item {
    if index % 32 == VENDOR_NAMESPACE then VendorMark
    else if index % 32 == RADIOTAP_NAMESPACE || index % 32 == EXT then Marker
    else Field(index)
  }

  /** The set bits in order: those left in the current word, then those of the words it
      chains to. Field numbers go on counting, or restart after a namespace marker. */
  function Items(rest: seq<nat>, shifter: nat, index: nat, reset: bool): seq<Item>
    decreases |rest|, 31 - index % 32
  {
    if index % 32 == EXT then
      if shifter % 2 == 0 || rest == [] then []
      else [Marker] + Items(rest[1..], rest[0], if reset then 0 else index + 1, false)
    else if shifter % 2 == 0 then Items(rest, shifter / 2, index + 1, reset)
    else [ItemAt(index)] + Items(rest, shifter / 2, index + 1, reset || index % 32 == RADIOTAP_NAMESPACE)
  }

  datatype Placed = Placed(index: nat, start: nat, size: nat)

  datatype Layout = Layout(fields: seq<Placed>, stop: Code)

  /** The least multiple of `align` that is at least `at`. */
  function AlignUp(at: nat, align: nat): nat
    requires align > 0
  {
    if at % align == 0 then at else at + (align - at % align)
  }

  /** Each field at its alignment after the one before; the first unknown field ends the
      layout, and so does the first that would not fit. */
  function Place(items: seq<Item>, at: nat, limit: nat): Layout {
    if items == [] then Layout([], NoEntry)
    else
      match items[0]
      case Marker => if at > limit then Layout([], Invalid) else Place(items[1..], at, limit)
      case VendorMark => Layout([], Invalid)
      case Field(i) =>
        if i >= |RTAP_SIZES| then Layout([], NoEntry)
        else
          var start := AlignUp(at, RTAP_SIZES[i].align);
          var end := start + RTAP_SIZES[i].size;
          if end > limit then Layout([], Invalid)
          else
            var l := Place(items[1..], end, limit);
            Layout([Placed(i, start, RTAP_SIZES[i].size)] + l.fields, l.stop)
  }

  lemma PlaceField(i: nat, items: seq<Item>, at: nat, limit: nat)
    requires i < |RTAP_SIZES|
    ensures var start, size := AlignUp(at, RTAP_SIZES[i].align), RTAP_SIZES[i].size;
            Place([Field(i)] + items, at, limit)
            == if start + size > limit then Layout([], Invalid)
               else
                 var rest := Place(items, start + size, limit);
                 Layout([Placed(i, start, size)] + rest.fields, rest.stop)
  {
    assert ([Field(i)] + items)[1..] == items;
  }

  /** `fields` and then the rest of a layout. */
  function Before(fields: seq<Placed>, rest: Layout): Layout { Layout(fields + rest.fields, rest.stop) }

  lemma BeforeOne(fields: seq<Placed>, f: Placed, rest: Layout)
    ensures Before(fields, Layout([f] + rest.fields, rest.stop)) == Before(fields + [f], rest)
  {
    assert fields + ([f] + rest.fields) == (fields + [f]) + rest.fields;
  }

  /** The layout of a whole header that `init` accepts. */
  function HeaderLayout(b: seq<U8>, maxLength: int): Layout
    requires maxLength <= |b| && PayloadStart(b, maxLength).Some?
  {
    var start := PayloadStart(b, maxLength).value;
    Place(HeaderItems(b, maxLength), start, Le16(b, 2))
  }

  function HeaderItems(b: seq<U8>, maxLength: int): seq<Item>
    requires maxLength <= |b| && PayloadStart(b, maxLength).Some?
  {
    var start := PayloadStart(b, maxLength).value;
    Items(Words(b, RADIOTAP_HEADER, start), Le32(b, 4), 0, false)
  }

  /** Fields lie after `at` and within `limit`, aligned, in order and without overlap. */
  ghost predicate Tight(fs: seq<Placed>, at: nat, limit: nat) {
    fs == []
    || (&& fs[0].index < |RTAP_SIZES| && fs[0].size == RTAP_SIZES[fs[0].index].size
        && RTAP_SIZES[fs[0].index].align > 0 && fs[0].start % RTAP_SIZES[fs[0].index].align == 0
        && at <= fs[0].start && fs[0].start + fs[0].size <= limit
        && Tight(fs[1..], fs[0].start + fs[0].size, limit))
  }

  /** The numbers of the fields among some items. */
  function FieldsOf(items: seq<Item>): seq<nat> {
    if items == [] then [] else (if items[0].Field? then [items[0].index] else []) + FieldsOf(items[1..])
  }

  /** A field at its place in front of a tight layout. */
  lemma TightFirst(i: nat, fs: seq<Placed>, at: nat, limit: nat)
    requires i < |RTAP_SIZES|
    requires var end := AlignUp(at, RTAP_SIZES[i].align) + RTAP_SIZES[i].size; end <= limit && Tight(fs, end, limit)
    ensures Tight([Placed(i, AlignUp(at, RTAP_SIZES[i].align), RTAP_SIZES[i].size)] + fs, at, limit)
  {
    TableIsAligned(i);
    AlignUpIsAligned(at, RTAP_SIZES[i].align);
    var p := Placed(i, AlignUp(at, RTAP_SIZES[i].align), RTAP_SIZES[i].size);
    assert ([p] + fs)[1..] == fs;
  }

  lemma {:induction false} LayoutIsTight(items: seq<Item>, at: nat, limit: nat)
    ensures Tight(Place(items, at, limit).fields, at, limit)
  {
    if items != [] {
      match items[0]
      case Marker => LayoutIsTight(items[1..], at, limit);
      case VendorMark =>
      case Field(i) =>
        if i < |RTAP_SIZES| {
          var end := AlignUp(at, RTAP_SIZES[i].align) + RTAP_SIZES[i].size;
          if end <= limit {
            LayoutIsTight(items[1..], end, limit);
            TightFirst(i, Place(items[1..], end, limit).fields, at, limit);
          }
        }
    }
  }

  function Numbers(fs: seq<Placed>): seq<nat> {
    if fs == [] then [] else [fs[0].index] + Numbers(fs[1..])
  }

  /** `fields` are all the present fields, or all before the first number not in the table. */
  ghost predicate AllKnown(fields: seq<Placed>, present: seq<nat>) {
    && Numbers(fields) <= present
    && (Numbers(fields) == present || present[|Numbers(fields)|] >= |RTAP_SIZES|)
  }

  /** A layout takes the present fields in their order, and reports that there are no
      more exactly at the end of them or at a field number it does not know. */
  lemma {:induction false} LayoutTakesPresentFields(items: seq<Item>, at: nat, limit: nat)
    requires VendorMark !in items
    ensures var l, present := Place(items, at, limit), FieldsOf(items);
            && Numbers(l.fields) <= present && l.stop != Ok && (l.stop == NoEntry ==> AllKnown(l.fields, present))
            && (at <= limit && AllKnown(l.fields, present) ==> l.stop == NoEntry)
  {
    if items != [] {
      match items[0]
      case Marker => LayoutTakesPresentFields(items[1..], at, limit);
      case Field(i) =>
        if i < |RTAP_SIZES| {
          var end := AlignUp(at, RTAP_SIZES[i].align) + RTAP_SIZES[i].size;
          var l, rest := Place(items, at, limit), Place(items[1..], end, limit);
          LayoutTakesPresentFields(items[1..], end, limit);
          if end <= limit {
            assert l.fields[1..] == rest.fields;
            assert Numbers(l.fields) == [i] + Numbers(rest.fields);
          }
        }
    }
  }

  lemma TableIsAligned(i: nat)
    requires i < |RTAP_SIZES|
    ensures RTAP_SIZES[i].align in {1, 2, 4, 8} && 0 < RTAP_SIZES[i].size < 16
  {
  }

  lemma AlignUpIsAligned(at: nat, align: nat)
    requires align in {1, 2, 4, 8}
    ensures AlignUp(at, align) % align == 0 && at <= AlignUp(at, align) < at + align
  {
  }

  // ----- The layout takes the fields whose presence bits are set

  /** The fields that bits `k` and up of a word announce; bit 0 stands for field `base`. */
  function PresentIn(word: nat, base: nat, k: nat): seq<nat>
    decreases 29 - k
  {
    if k >= 29 then [] else (if Bit(word, k) then [base + k] else []) + PresentIn(word, base, k + 1)
  }

  /** The number of bit 0 of the word after `word`. */
  function NextBase(word: nat, base: nat): nat { if Bit(word, 29) then 0 else base + 32 }

  /** The fields that presence words announce, word after word. */
  function Present(words: seq<nat>, base: nat): seq<nat> {
    if words == [] then [] else PresentIn(words[0], base, 0) + Present(words[1..], NextBase(words[0], base))
  }

  /** The presence words of a header that `init` accepts. */
  function PresenceWords(b: seq<U8>, maxLength: int): seq<nat>
    requires maxLength <= |b| && PayloadStart(b, maxLength).Some?
  {
    Words(b, 4, PayloadStart(b, maxLength).value)
  }

  /** No word announces a vendor namespace. */
  ghost predicate NoVendor(words: seq<nat>) { forall w :: w in words ==> !Bit(w, 30) }

  /** A word's fields are exactly its set bits below bit 29. */
  lemma {:induction false} PresentInIsTheBits(word: nat, base: nat, k: nat, f: nat)
    ensures f in PresentIn(word, base, k) <==> base + k <= f < base + 29 && Bit(word, f - base)
    decreases 29 - k
  {
    if k < 29 {
      PresentInIsTheBits(word, base, k + 1, f);
    }
  }

  ghost predicate Ascending(s: seq<nat>) { forall i, j :: 0 <= i < j < |s| ==> s[i] < s[j] }

  lemma AscendingFirst(x: nat, s: seq<nat>)
    requires Ascending(s) && forall f: nat :: f in s ==> x < f
    ensures Ascending([x] + s)
  {
    var t := [x] + s;
    forall i, j | 0 <= i < j < |t| ensures t[i] < t[j] {
      assert t[j] == s[j - 1] && s[j - 1] in s;
      if i > 0 { assert t[i] == s[i - 1]; }
    }
  }

  lemma {:induction false} PresentInIsAbove(word: nat, base: nat, k: nat)
    ensures forall f: nat :: f in PresentIn(word, base, k) ==> base + k <= f
  {
    forall f: nat | f in PresentIn(word, base, k) ensures base + k <= f { PresentInIsTheBits(word, base, k, f); }
  }

  /** They come in ascending order. */
  lemma {:induction false} PresentInAscends(word: nat, base: nat, k: nat)
    ensures Ascending(PresentIn(word, base, k))
    decreases 29 - k
  {
    if k < 29 {
      var rest := PresentIn(word, base, k + 1);
      PresentInAscends(word, base, k + 1);
      if Bit(word, k) {
        PresentInIsAbove(word, base, k + 1);
        AscendingFirst(base + k, rest);
      } else {
        assert PresentIn(word, base, k) == rest;
      }
    }
  }

  /** Bit 31 is set in every word but the last. */
  ghost predicate Chained(words: seq<nat>) {
    && words != []
    && (Bit(words[0], 31) <==> |words| > 1)
    && (|words| > 1 ==> Chained(words[1..]))
  }

  lemma {:induction false} WordsAreChained(b: seq<U8>, at: nat, limit: nat)
    requires limit <= |b| && ChainEnd(b, at, limit).Some?
    ensures Chained(Words(b, at, ChainEnd(b, at, limit).value))
    decreases limit - at
  {
    var end := ChainEnd(b, at, limit).value;
    var words := Words(b, at, end);
    assert words[1..] == Words(b, at + 4, end);
    if Extended(Le32(b, at)) {
      WordsAreChained(b, at + 4, limit);
    } else {
      assert Words(b, at + 4, at + 4) == [];
    }
  }

  /** The header's own word and those it chains to. */
  lemma PresenceWordsAreChained(b: seq<U8>, maxLength: int)
    requires maxLength <= |b| && PayloadStart(b, maxLength).Some?
    ensures var words := PresenceWords(b, maxLength);
            && Chained(words) && words[0] == Le32(b, 4)
            && words[1..] == Words(b, RADIOTAP_HEADER, PayloadStart(b, maxLength).value)
  {
    var start := PayloadStart(b, maxLength).value;
    var words := PresenceWords(b, maxLength);
    assert words == [Le32(b, 4)] + Words(b, RADIOTAP_HEADER, start);
    if Extended(Le32(b, 4)) {
      WordsAreChained(b, RADIOTAP_HEADER, Le16(b, 2));
    } else {
      assert Words(b, RADIOTAP_HEADER, RADIOTAP_HEADER) == [];
    }
  }

  /** A word without its lowest `k` bits. */
  function Shifted(word: nat, k: nat): nat { if k == 0 then word else Shifted(word / 2, k - 1) }

  lemma ShiftedBit(word: nat, k: nat)
    ensures Bit(word, k) <==> Shifted(word, k) % 2 == 1
    ensures Shifted(word, k + 1) == Shifted(word, k) / 2
  {
    if k > 0 { ShiftedBit(word / 2, k - 1); }
  }

  lemma FieldsOfFirst(item: Item, items: seq<Item>)
    ensures FieldsOf([item] + items) == (if item.Field? then [item.index] else []) + FieldsOf(items)
    ensures VendorMark in [item] + items <==> item == VendorMark || VendorMark in items
  {
    assert ([item] + items)[1..] == items;
  }

  /** What is left to announce at bit `k` of the first word, numbering from `base`. */
  function PresentFrom(words: seq<nat>, base: nat, k: nat): seq<nat>
    requires words != []
  {
    PresentIn(words[0], base, k) + Present(words[1..], NextBase(words[0], base))
  }

  /** The bit by bit walk from bit `k` of the first of `words`. */
  function ItemsFrom(words: seq<nat>, base: nat, k: nat): seq<Item>
    requires words != []
  {
    Items(words[1..], Shifted(words[0], k), base + k, k > RADIOTAP_NAMESPACE && Bit(words[0], RADIOTAP_NAMESPACE))
  }

  /** The walk below bit 31: it shifts, and notes a set bit. */
  lemma ItemsFromNext(words: seq<nat>, base: nat, k: nat)
    requires words != [] && base % 32 == 0 && k < EXT
    ensures ItemsFrom(words, base, k) ==
            (if Bit(words[0], k) then [ItemAt(base + k)] else []) + ItemsFrom(words, base, k + 1)
  {
    ShiftedBit(words[0], k);
    assert (base + k) % 32 == k;
  }

  /** The walk at bit 31: it goes on in the next word, if there is one. */
  lemma ItemsFromExt(words: seq<nat>, base: nat)
    requires Chained(words) && base % 32 == 0
    ensures ItemsFrom(words, base, EXT) ==
            if |words| > 1 then [Marker] + ItemsFrom(words[1..], NextBase(words[0], base), 0) else []
  {
    ShiftedBit(words[0], EXT);
    assert (base + EXT) % 32 == EXT;
  }

  /** Bit 30 of the first word is at or after bit `k`, or that of a later word is set. */
  ghost predicate VendorAhead(words: seq<nat>, k: nat)
    requires words != []
  {
    (k <= VENDOR_NAMESPACE && Bit(words[0], VENDOR_NAMESPACE)) || !NoVendor(words[1..])
  }

  lemma PresentFromNext(words: seq<nat>, base: nat, k: nat)
    requires words != [] && base % 32 == 0 && k < EXT
    ensures var bit := if Bit(words[0], k) && k < RADIOTAP_NAMESPACE then [base + k] else [];
            PresentFrom(words, base, k) == bit + PresentFrom(words, base, k + 1)
  {
    var bit := if Bit(words[0], k) && k < RADIOTAP_NAMESPACE then [base + k] else [];
    PresentInNext(words[0], base, k);
    Associative(bit, PresentIn(words[0], base, k + 1), Present(words[1..], NextBase(words[0], base)));
  }

  lemma PresentInNext(word: nat, base: nat, k: nat)
    ensures PresentIn(word, base, k) ==
            (if Bit(word, k) && k < RADIOTAP_NAMESPACE then [base + k] else []) + PresentIn(word, base, k + 1)
  {
  }

  lemma Associative(a: seq<nat>, b: seq<nat>, c: seq<nat>)
    ensures (a + b) + c == a + (b + c)
  {
  }

  lemma PresentFromExt(words: seq<nat>, base: nat)
    requires words != []
    ensures PresentFrom(words, base, EXT) ==
            if |words| > 1 then PresentFrom(words[1..], NextBase(words[0], base), 0) else []
  {
  }

  lemma VendorAheadExt(words: seq<nat>)
    requires words != []
    ensures VendorAhead(words, EXT) <==> |words| > 1 && VendorAhead(words[1..], 0)
  {
    if |words| > 1 { assert words[1..] == [words[1]] + words[1..][1..]; }
  }

  /** What one bit adds to the items, and to the fields among them. */
  lemma FieldsOfBit(word: nat, base: nat, k: nat, items: seq<Item>)
    requires base % 32 == 0 && k < EXT
    ensures var all := (if Bit(word, k) then [ItemAt(base + k)] else []) + items;
            && FieldsOf(all) == (if Bit(word, k) && k < RADIOTAP_NAMESPACE then [base + k] else []) + FieldsOf(items)
            && (VendorMark in all <==> (k == VENDOR_NAMESPACE && Bit(word, k)) || VendorMark in items)
  {
    assert (base + k) % 32 == k;
    if Bit(word, k) { FieldsOfFirst(ItemAt(base + k), items); } else { assert [] + items == items; }
  }

  /** From bit `k` on, the walk announces the fields whose presence bits are set, and it
      meets a vendor namespace exactly when some word announces one. */
  ghost predicate Faithful(words: seq<nat>, base: nat, k: nat)
    requires words != []
  {
    && FieldsOf(ItemsFrom(words, base, k)) == PresentFrom(words, base, k)
    && (VendorMark in ItemsFrom(words, base, k) <==> VendorAhead(words, k))
  }

  lemma FaithfulBelowExt(words: seq<nat>, base: nat, k: nat)
    requires words != [] && base % 32 == 0 && k < EXT && Faithful(words, base, k + 1)
    ensures Faithful(words, base, k)
  {
    ItemsFromNext(words, base, k);
    PresentFromNext(words, base, k);
    FieldsOfBit(words[0], base, k, ItemsFrom(words, base, k + 1));
  }

  lemma FaithfulAtExt(words: seq<nat>, base: nat)
    requires Chained(words) && base % 32 == 0
    requires |words| > 1 ==> Faithful(words[1..], NextBase(words[0], base), 0)
    ensures Faithful(words, base, EXT)
  {
    ItemsFromExt(words, base);
    PresentFromExt(words, base);
    VendorAheadExt(words);
    if |words| > 1 {
      FieldsOfFirst(Marker, ItemsFrom(words[1..], NextBase(words[0], base), 0));
    }
  }

  lemma {:induction false} ItemsAreTheBits(words: seq<nat>, base: nat, k: nat)
    requires Chained(words) && base % 32 == 0 && k <= EXT
    ensures Faithful(words, base, k)
    decreases |words|, EXT - k
  {
    if k < EXT {
      ItemsAreTheBits(words, base, k + 1);
      FaithfulBelowExt(words, base, k);
    } else {
      if |words| > 1 { ItemsAreTheBits(words[1..], NextBase(words[0], base), 0); }
      FaithfulAtExt(words, base);
    }
  }

  /** The same for a whole header. */
  lemma HeaderItemsAreTheBits(b: seq<U8>, maxLength: int)
    requires maxLength <= |b| && PayloadStart(b, maxLength).Some?
    ensures FieldsOf(HeaderItems(b, maxLength)) == Present(PresenceWords(b, maxLength), 0)
    ensures VendorMark in HeaderItems(b, maxLength) <==> !NoVendor(PresenceWords(b, maxLength))
  {
    var words := PresenceWords(b, maxLength);
    PresenceWordsAreChained(b, maxLength);
    assert HeaderItems(b, maxLength) == ItemsFrom(words, 0, 0);
    ItemsAreTheBits(words, 0, 0);
    assert words == [words[0]] + words[1..];
  }

  /** Without vendor namespaces a header's layout takes the fields whose presence bits are
      set, in their order, up to the first unknown one or the first that does not fit, and
      the reason to stop tells which. */
  lemma HeaderTakesPresentFields(b: seq<U8>, maxLength: int)
    requires maxLength <= |b| && PayloadStart(b, maxLength).Some?
    requires NoVendor(PresenceWords(b, maxLength))
    ensures var l, present := HeaderLayout(b, maxLength), Present(PresenceWords(b, maxLength), 0);
            && Numbers(l.fields) <= present && l.stop != Ok && (l.stop == NoEntry ==> AllKnown(l.fields, present))
            && (PayloadStart(b, maxLength).value <= Le16(b, 2) && AllKnown(l.fields, present) ==> l.stop == NoEntry)
  {
    HeaderItemsAreTheBits(b, maxLength);
    LayoutTakesPresentFields(HeaderItems(b, maxLength), PayloadStart(b, maxLength).value, Le16(b, 2));
  }
}
