/** The radiotap header iterator of hardware/rssi/radiotap.cc. Pointers into the header
    are offsets from its start; a read outside the buffer would not verify. */
module Radiotap {
  import opened Options
  import opened Packets
  import opened RadiotapLayout
  import opened RadiotapFields

  lemma NextIndex(i: nat)
    requires i % 32 != EXT
    ensures (i + 1) % 32 == i % 32 + 1
  {
  }

  lemma NextWordIndex(i: nat)
    requires i % 32 == EXT
    ensures (i + 1) % 32 == 0
  {
  }

  class Iterator {
    var buffer: seq<U8>
    var vns: seq<Namespace>
    var maxLength: nat
    var current: Current
    var isRadiotapNs: bool
    var arg: nat
    var nextNsData: Option<nat>
    var nextBitmap: nat
    var bitmapShifter: nat
    var argIndex: nat
    var resetOnExt: bool
    var thisArg: nat
    var thisArgIndex: nat
    var thisArgSize: nat
    /** Where the presence words end. */
    ghost var payload: nat

    /** The presence words up to `payload` are in the header, and bit 31 of the current
        one, not shifted out yet, is set only if there is a next one. */
    ghost predicate ChainValid()
      reads this`buffer, this`maxLength, this`nextBitmap, this`payload, this`bitmapShifter, this`argIndex
    {
      && maxLength <= |buffer| && RADIOTAP_HEADER <= nextBitmap <= payload
      && (nextBitmap < payload ==> nextBitmap + 4 <= payload)
      && (payload > RADIOTAP_HEADER ==> payload <= maxLength)
      && 8 <= |buffer|
      && (Bit(bitmapShifter, EXT - argIndex % 32) ==> nextBitmap < payload)
      && (nextBitmap < payload ==> ChainEnd(buffer, nextBitmap, maxLength) == Some(payload))
    }

    ghost predicate Valid()
      reads this
    {
      && ChainValid()
      && payload <= arg
      && (current.Vendor? ==> current.ns in vns)
      && (current != Standard ==> nextNsData.Some? && payload <= nextNsData.value)
    }

    /** Presence bits not looked at yet. */
    ghost function BitsLeft(): int
      reads this`nextBitmap, this`payload, this`argIndex
    {
      8 * (payload - nextBitmap) + (EXT - argIndex % 32)
    }

    /** Presence words not moved on to yet. */
    ghost function WordsLeft(): seq<nat>
      reads this`buffer, this`nextBitmap, this`payload
    {
      if nextBitmap < payload <= |buffer| then Words(buffer, nextBitmap, payload) else []
    }

    ghost function ItemsLeft(): seq<Item>
      reads this`buffer, this`nextBitmap, this`payload, this`bitmapShifter, this`argIndex, this`resetOnExt
    {
      Items(WordsLeft(), bitmapShifter, argIndex, resetOnExt)
    }

    ghost function LayoutLeft(): Layout
      reads this`buffer, this`nextBitmap, this`payload, this`bitmapShifter, this`argIndex, this`resetOnExt,
        this`arg, this`maxLength
    {
      Place(ItemsLeft(), arg, maxLength)
    }

    /** In the standard namespace, with no vendor namespace ahead. */
    ghost predicate Plain()
      reads this`buffer, this`nextBitmap, this`payload, this`bitmapShifter, this`argIndex, this`resetOnExt,
        this`current
    {
      current == Standard && VendorMark !in ItemsLeft()
    }

    constructor ()
    {
      buffer, vns, current := [], [], Unknown;
      nextNsData := None;
    }

    method Init(header: seq<U8>, maxLength: int, vns: seq<Namespace>) returns (code: Code)
      requires maxLength <= |header|
      modifies this
      ensures code == if PayloadStart(header, maxLength).Some? then Ok else Invalid
      ensures code == Ok ==>
                && Valid() && buffer == header && this.vns == vns && this.maxLength == Le16(header, 2)
                && Some(payload) == PayloadStart(header, maxLength) && thisArg == arg == payload
                && current == Standard && ItemsLeft() == HeaderItems(header, maxLength)
    {
      code := Invalid;
      if maxLength >= RADIOTAP_HEADER && header[0] == 0 && maxLength >= Le16(header, 2) {
        var ok := Start(header, vns);
        if ok {
          payload, thisArg := arg, arg;
          Ready(maxLength);
          code := Ok;
        }
      }
    }

    /** The fields `init` sets, and the walk to where the arguments start. */
    method Start(header: seq<U8>, vns: seq<Namespace>) returns (ok: bool)
      requires RADIOTAP_HEADER <= |header| && header[0] == 0 && Le16(header, 2) <= |header|
      modifies this
      ensures ok == PayloadStart(header, |header|).Some? && (ok ==> PayloadStart(header, |header|) == Some(arg))
      ensures buffer == header && this.vns == vns && maxLength == Le16(header, 2) && current == Standard
      ensures nextBitmap == RADIOTAP_HEADER && bitmapShifter == Le32(header, 4) && argIndex == 0 && !resetOnExt
    {
      buffer, maxLength := header, Le16(header, 2);
      argIndex, bitmapShifter := 0, Le32(header, 4);
      arg, resetOnExt, nextBitmap := RADIOTAP_HEADER, false, RADIOTAP_HEADER;
      this.vns, current, isRadiotapNs := vns, Standard, true;
      ok := true;
      if Extended(bitmapShifter) {
        ok := WalkChain();
      }
    }

    lemma Ready(length: int)
      requires RADIOTAP_HEADER <= length <= |buffer| && maxLength == Le16(buffer, 2) <= length
      requires PayloadStart(buffer, length) == Some(payload) && payload <= arg
      requires nextBitmap == RADIOTAP_HEADER && bitmapShifter == Le32(buffer, 4) && argIndex == 0 && !resetOnExt
               && current == Standard
      ensures Valid() && ItemsLeft() == HeaderItems(buffer, length)
    {
      assert payload == RADIOTAP_HEADER ==> Words(buffer, RADIOTAP_HEADER, payload) == [];
    }

    /** Move `_arg` past the last presence word of a chain that starts there. */
    method WalkChain() returns (ok: bool)
      requires 0 <= maxLength <= |buffer|
      modifies this`arg
      ensures ok == ChainEnd(buffer, old(arg), maxLength).Some?
      ensures ok ==> Some(arg) == ChainEnd(buffer, old(arg), maxLength)
    {
      if arg + 4 > maxLength { return false; }
      while Extended(Le32(buffer, arg))
        invariant arg + 4 <= maxLength
        invariant ChainEnd(buffer, old(arg), maxLength) == ChainEnd(buffer, arg, maxLength)
        decreases maxLength - arg
      {
        arg := arg + 4;
        if arg + 4 > maxLength { return false; }
      }
      arg := arg + 4;
      return true;
    }

    /** The caller registered such a namespace. */
    ghost predicate Registered(oui: nat, subns: nat)
      reads this`vns
    {
      exists n :: n in vns && n.oui == oui && n.subns == subns
    }

    method FindNs(oui: nat, subns: nat)
      modifies this`current
      ensures current == Unknown || (current.Vendor? && current.ns in vns)
      ensures current.Vendor? ==> current.ns.oui == oui && current.ns.subns == subns
      ensures current == Unknown <==> !Registered(oui, subns)
    {
      current := Unknown;
      for i := 0 to |vns|
        invariant current == Unknown
        invariant forall j :: 0 <= j < i ==> vns[j].oui != oui || vns[j].subns != subns
      {
        if vns[i].oui == oui && vns[i].subns == subns {
          current := Vendor(vns[i]);
          break;
        }
      }
    }

    /** `_arg` rounded up past the padding of an alignment. */
    method Pad(align: nat)
      requires 0 < align
      modifies this`arg
      ensures old(arg) <= arg
      ensures align in {1, 2, 4, 8} ==> arg == AlignUp(old(arg), align)
    {
      var pad := And(arg, align - 1, 4);
      AndIsSmall(arg, align - 1, 4);
      if align in {1, 2, 4, 8} { AndIsModulo(arg, align, 4); }
      if pad != 0 {
        arg := arg + (align - pad);
      }
    }

    /** `next_entry`: move on to the next presence bit. */
    method Shift()
      requires Valid() && argIndex % 32 != EXT
      requires argIndex % 32 == RADIOTAP_NAMESPACE && bitmapShifter % 2 == 1 ==> resetOnExt
      modifies this`bitmapShifter, this`argIndex
      ensures Valid() && BitsLeft() == old(BitsLeft()) - 1
      ensures old(ItemsLeft()) ==
              if old(bitmapShifter) % 2 == 1 then [ItemAt(old(argIndex))] + ItemsLeft() else ItemsLeft()
    {
      NextIndex(argIndex);
      bitmapShifter := bitmapShifter / 2;
      argIndex := argIndex + 1;
    }

    /** The next presence word is there, and what follows it is as before. */
    lemma NextWord()
      requires ChainValid() && argIndex % 32 == EXT && bitmapShifter % 2 == 1
      ensures nextBitmap + 4 <= payload <= maxLength
      ensures WordsLeft() == [Le32(buffer, nextBitmap)]
              + if nextBitmap + 4 < payload then Words(buffer, nextBitmap + 4, payload) else []
      ensures if Extended(Le32(buffer, nextBitmap)) then ChainEnd(buffer, nextBitmap + 4, maxLength) == Some(payload)
              else nextBitmap + 4 == payload
    {
      assert Bit(bitmapShifter, 0);
      assert Words(buffer, nextBitmap, payload) == [Le32(buffer, nextBitmap)] + Words(buffer, nextBitmap + 4, payload);
    }

    /** The items go on in the next word. */
    lemma NextItems(tail: seq<nat>)
      requires argIndex % 32 == EXT && bitmapShifter % 2 == 1 && nextBitmap + 4 <= |buffer|
      requires WordsLeft() == [Le32(buffer, nextBitmap)] + tail
      ensures ItemsLeft() ==
              [Marker] + Items(tail, Le32(buffer, nextBitmap), if resetOnExt then 0 else argIndex + 1, false)
    {
      assert WordsLeft()[1..] == tail;
    }

    /** Bit 31 was set: move on to the next presence word. */
    method Extend()
      requires Valid() && argIndex % 32 == EXT && bitmapShifter % 2 == 1
      modifies this`bitmapShifter, this`argIndex, this`nextBitmap, this`resetOnExt
      ensures Valid() && BitsLeft() == old(BitsLeft()) - 1
      ensures old(ItemsLeft()) == [Marker] + ItemsLeft()
    {
      NextWord();
      ghost var tail := if nextBitmap + 4 < payload then Words(buffer, nextBitmap + 4, payload) else [];
      NextItems(tail);
      ghost var items := ItemsLeft();
      ReadWord();
      assert WordsLeft() == tail;
      assert items == [Marker] + ItemsLeft();
    }

    /** Load the next presence word and go to its first bit. */
    method ReadWord()
      requires Valid() && argIndex % 32 == EXT && nextBitmap + 4 <= payload <= maxLength
      requires if Extended(Le32(buffer, nextBitmap)) then ChainEnd(buffer, nextBitmap + 4, maxLength) == Some(payload)
               else nextBitmap + 4 == payload
      modifies this`bitmapShifter, this`argIndex, this`nextBitmap, this`resetOnExt
      ensures Valid() && BitsLeft() == old(BitsLeft()) - 1
      ensures bitmapShifter == Le32(buffer, old(nextBitmap)) && nextBitmap == old(nextBitmap) + 4
      ensures argIndex == (if old(resetOnExt) then 0 else old(argIndex) + 1) && !resetOnExt
    {
      NextWordIndex(argIndex);
      bitmapShifter := Le32(buffer, nextBitmap);
      nextBitmap := nextBitmap + 4;
      argIndex := if resetOnExt then 0 else argIndex + 1;
      resetOnExt := false;
    }

    /** Record an argument of `size` bytes past its padding and step over it; fails if
        it would end outside the header. */
    method Take(align: nat, size: nat) returns (fits: bool)
      requires Valid() && 0 < align
      modifies this`arg, this`thisArg, this`thisArgIndex, this`thisArgSize
      ensures Valid() && thisArgIndex == argIndex && thisArgSize == size
      ensures payload <= thisArg && arg == thisArg + size && fits == (arg <= maxLength)
      ensures align in {1, 2, 4, 8} ==> thisArg == AlignUp(old(arg), align)
    {
      Pad(align);
      thisArgIndex, thisArg, thisArgSize := argIndex, arg, size;
      arg := arg + size;
      fits := arg <= maxLength;
    }

    /** Take a field and move on to the next presence bit. */
    method TakeField(align: nat, size: nat) returns (fits: bool)
      requires Valid() && 0 < align && argIndex % 32 != EXT && argIndex % 32 != RADIOTAP_NAMESPACE
               && bitmapShifter % 2 == 1
      modifies this`bitmapShifter, this`argIndex, this`arg, this`thisArg, this`thisArgIndex, this`thisArgSize
      ensures Valid() && thisArgIndex == old(argIndex) && thisArgSize == size && payload <= thisArg
              && arg == thisArg + size
      ensures fits == (thisArg + size <= maxLength)
      ensures fits ==> BitsLeft() == old(BitsLeft()) - 1 && old(ItemsLeft()) == [ItemAt(thisArgIndex)] + ItemsLeft()
      ensures align in {1, 2, 4, 8} ==> thisArg == AlignUp(old(arg), align)
    {
      fits := Take(align, size);
      if fits { Shift(); }
    }

    /** The six bytes that open a vendor namespace: its owner and number and the length of
        what follows. The namespace is the registered one of these if there is one. */
    ghost predicate VendorAt(at: nat)
      reads this`buffer, this`vns, this`current, this`nextNsData
      requires at + 6 <= |buffer|
    {
      var b: seq<nat> := buffer[at..at + 6];
      var oui := 256 * 256 * b[0] + 256 * b[1] + b[2];
      && nextNsData == Some(at + 6 + b[4] + 256 * b[5])
      && (current == Unknown <==> !Registered(oui, b[3]))
      && (current != Unknown ==> current.Vendor? && current.ns.oui == oui && current.ns.subns == b[3])
    }

    method ReadVendor() returns (size: nat)
      requires Valid() && arg + 6 <= maxLength
      modifies this`current, this`nextNsData
      ensures Valid() && VendorAt(arg)
      ensures size == if current == Unknown then nextNsData.value - arg else 6
    {
      FindNs(Oui(buffer, arg), buffer[arg + 3]);
      nextNsData := Some(arg + 6 + Le16(buffer, arg + 4));
      size := if current == Unknown then 6 + Le16(buffer, arg + 4) else 6;
    }

    /** Step over what `Next` shows of a vendor namespace, all of it or its six bytes. */
    method TakeVendor(size: nat) returns (fits: bool)
      requires Valid() && argIndex % 32 != EXT && argIndex % 32 != RADIOTAP_NAMESPACE && bitmapShifter % 2 == 1
      modifies this`bitmapShifter, this`argIndex, this`arg, this`thisArg, this`thisArgIndex, this`thisArgSize,
        this`resetOnExt, this`isRadiotapNs
      ensures Valid() && thisArg == old(arg) && thisArgSize == size && arg == thisArg + size
      ensures fits == (arg <= maxLength)
      ensures fits ==> BitsLeft() == old(BitsLeft()) - 1 && thisArgIndex == 30 && resetOnExt && !isRadiotapNs
    {
      fits := TakeField(1, size);
      if fits {
        thisArgIndex := VENDOR_NAMESPACE;
        resetOnExt := true;
        isRadiotapNs := false;
      }
    }

    /** Bit 30: a vendor namespace begins, at an even offset. One nobody registered is
        returned whole; of another the six bytes are stepped over. Either way its data are
        skipped to `nextNsData` once its fields are no longer known, and the field numbers
        of the next word restart. */
    method EnterVendor() returns (code: Code, hit: bool)
      requires Valid() && argIndex % 32 == VENDOR_NAMESPACE && bitmapShifter % 2 == 1
      modifies this`bitmapShifter, this`argIndex, this`arg, this`thisArg, this`thisArgIndex, this`thisArgSize,
        this`current, this`nextNsData, this`resetOnExt, this`isRadiotapNs
      ensures Valid()
      ensures code == Ok ==> BitsLeft() == old(BitsLeft()) - 1 && resetOnExt && !isRadiotapNs
      ensures AlignUp(old(arg), 2) + 6 > maxLength ==> code == Invalid
      ensures AlignUp(old(arg), 2) + 6 <= maxLength ==>
                && thisArg == AlignUp(old(arg), 2) && VendorAt(thisArg) && arg == thisArg + thisArgSize
                && arg == (if current == Unknown then nextNsData.value else thisArg + 6)
                && code == if arg <= maxLength then Ok else Invalid
      ensures code == Ok ==> thisArgIndex == 30 && hit == (current == Unknown) && payload <= thisArg
    {
      code, hit := Invalid, false;
      Pad(2);
      if arg + 6 <= maxLength {
        code, hit := OpenVendor();
      }
    }

    /** The same once `_arg` is even and the six bytes are known to be there. */
    method OpenVendor() returns (code: Code, hit: bool)
      requires Valid() && argIndex % 32 == VENDOR_NAMESPACE && bitmapShifter % 2 == 1 && arg + 6 <= maxLength
      modifies this`bitmapShifter, this`argIndex, this`arg, this`thisArg, this`thisArgIndex, this`thisArgSize,
        this`current, this`nextNsData, this`resetOnExt, this`isRadiotapNs
      ensures Valid() && thisArg == old(arg) && VendorAt(thisArg) && arg == thisArg + thisArgSize
      ensures arg == if current == Unknown then nextNsData.value else thisArg + 6
      ensures code == if arg <= maxLength then Ok else Invalid
      ensures code == Ok ==> BitsLeft() == old(BitsLeft()) - 1 && resetOnExt && !isRadiotapNs
      ensures code == Ok ==> thisArgIndex == 30 && hit == (current == Unknown)
    {
      var size := ReadVendor();
      var fits := TakeVendor(size);
      code, hit := if fits then Ok else Invalid, fits && current == Unknown;
    }

    /** A field bit in the standard namespace. */
    method EnterKnown() returns (code: Code)
      requires Valid() && argIndex % 32 < RADIOTAP_NAMESPACE && bitmapShifter % 2 == 1 && current == Standard
      modifies this`bitmapShifter, this`argIndex, this`arg, this`thisArg, this`thisArgIndex, this`thisArgSize
      ensures Valid()
      ensures code == Ok ==>
                BitsLeft() == old(BitsLeft()) - 1 && payload <= thisArg && thisArg + thisArgSize <= maxLength
      ensures code == Ok ==> old(ItemsLeft()) == [Field(thisArgIndex)] + ItemsLeft()
      ensures code == Ok ==> old(LayoutLeft()) == ThisThen(LayoutLeft())
      ensures code != Ok ==> old(LayoutLeft()) == Layout([], code)
    {
      FieldFirst(ItemsLeft());
      if argIndex < |RTAP_SIZES| {
        var fits := TakeKnown();
        code := if fits then Ok else Invalid;
      } else {
        code := NoEntry;
      }
    }

    /** Take a field of the standard namespace's table. */
    method TakeKnown() returns (fits: bool)
      requires Valid() && argIndex < |RTAP_SIZES| && bitmapShifter % 2 == 1 && ItemAt(argIndex) == Field(argIndex)
      modifies this`bitmapShifter, this`argIndex, this`arg, this`thisArg, this`thisArgIndex, this`thisArgSize
      ensures Valid()
      ensures fits ==> BitsLeft() == old(BitsLeft()) - 1 && payload <= thisArg && thisArg + thisArgSize <= maxLength
      ensures fits ==> old(ItemsLeft()) == [Field(thisArgIndex)] + ItemsLeft()
      ensures old(LayoutLeft()) == if fits then ThisThen(LayoutLeft()) else Layout([], Invalid)
    {
      ghost var i, at, tail := argIndex, arg, ItemsLeft()[1..];
      assert ItemsLeft() == [Field(i)] + tail;
      TableIsAligned(i);
      PlaceField(i, tail, at, maxLength);
      fits := TakeField(RTAP_SIZES[argIndex].align, RTAP_SIZES[argIndex].size);
      assert fits ==> tail == ItemsLeft();
    }

    /** In the standard namespace the next item is the field the index says. */
    lemma FieldFirst(items: seq<Item>)
      requires Valid() && argIndex % 32 < RADIOTAP_NAMESPACE && bitmapShifter % 2 == 1 && items == ItemsLeft()
      ensures items != [] && items == [Field(argIndex)] + items[1..]
    {
    }

    /** The vendor's table knows this field. */
    ghost predicate KnownThere()
      reads this`current, this`argIndex
    {
      current.Vendor? && argIndex < |current.ns.sizes| && current.ns.sizes[argIndex].align != 0
    }

    /** A field bit in a vendor's namespace: the field, at the place and of the size the
        vendor's table says; if that does not know it, the namespace's data are skipped, and
        all its further fields with them. */
    method EnterForeign() returns (code: Code, hit: bool)
      requires Valid() && argIndex % 32 < RADIOTAP_NAMESPACE && bitmapShifter % 2 == 1 && current != Standard
      modifies this`bitmapShifter, this`argIndex, this`arg, this`thisArg, this`thisArgIndex, this`thisArgSize,
        this`current
      ensures Valid()
      ensures code == Ok ==> BitsLeft() == old(BitsLeft()) - 1
      ensures code == Ok && hit ==> payload <= thisArg && thisArg + thisArgSize <= maxLength
      ensures hit == (old(KnownThere()) && code == Ok)
      ensures !old(KnownThere()) ==> code == Ok && Some(arg) == nextNsData && current == Unknown
      ensures old(KnownThere()) ==>
                var entry := old(current).ns.sizes[old(argIndex)];
                && current == old(current) && thisArgIndex == old(argIndex) && thisArgSize == entry.size
                && (entry.align in {1, 2, 4, 8} ==> thisArg == AlignUp(old(arg), entry.align))
                && arg == thisArg + thisArgSize && code == if arg <= maxLength then Ok else Invalid
    {
      hit := false;
      var align, size := 0, 0;
      if current.Vendor? && argIndex < |current.ns.sizes| {
        align, size := current.ns.sizes[argIndex].align, current.ns.sizes[argIndex].size;
      }
      if align == 0 {
        arg := nextNsData.value;
        current := Unknown;
        Shift();
        code := Ok;
      } else {
        hit := TakeField(align, size);
        code := if hit then Ok else Invalid;
      }
    }

    /** Bits 29 and 31 are markers, which end a layout that has left the header. */
    lemma MarkerFirst()
      requires argIndex % 32 in {RADIOTAP_NAMESPACE, EXT} && bitmapShifter % 2 == 1
      requires argIndex % 32 == EXT ==> WordsLeft() != []
      ensures ItemsLeft() != [] && ItemsLeft()[0] == Marker
      ensures arg > maxLength ==> LayoutLeft() == Layout([], Invalid)
    {
    }

    /** At bit 29 it makes no difference whether the numbers already restart. */
    lemma RestartsAnyway()
      requires argIndex % 32 == RADIOTAP_NAMESPACE && bitmapShifter % 2 == 1
      ensures Items(WordsLeft(), bitmapShifter, argIndex, true) == ItemsLeft()
    {
    }

    /** At an unset bit 31 there is nothing left. */
    lemma NothingLeft()
      requires argIndex % 32 == EXT && bitmapShifter % 2 == 0
      ensures LayoutLeft() == Layout([], NoEntry)
    {
    }

    /** Bit 30 is a vendor namespace. */
    lemma VendorFirst()
      requires argIndex % 32 == VENDOR_NAMESPACE && bitmapShifter % 2 == 1
      ensures VendorMark in ItemsLeft()
    {
      assert ItemsLeft()[0] == VendorMark;
    }

    /** Have the field numbers restart in the next word, and move on to the next bit. */
    method Restart()
      requires Valid() && argIndex % 32 == RADIOTAP_NAMESPACE && bitmapShifter % 2 == 1
      modifies this`bitmapShifter, this`argIndex, this`resetOnExt
      ensures Valid() && BitsLeft() == old(BitsLeft()) - 1 && old(ItemsLeft()) == [Marker] + ItemsLeft()
    {
      RestartsAnyway();
      resetOnExt := true;
      assert ItemsLeft() == old(ItemsLeft());
      Shift();
    }

    /** A marker takes no room, but ends a walk that has left the header. */
    method TakeMarker() returns (fits: bool)
      requires Valid() && ItemsLeft() != [] && ItemsLeft()[0] == Marker
      modifies this`arg, this`thisArg, this`thisArgIndex, this`thisArgSize
      ensures Valid() && arg == old(arg) && fits == (arg <= maxLength)
      ensures fits ==>
                forall items :: old(ItemsLeft()) == [Marker] + items ==>
                  old(LayoutLeft()) == Place(items, arg, maxLength)
      ensures !fits ==> old(LayoutLeft()) == Layout([], Invalid)
    {
      ghost var tail := ItemsLeft()[1..];
      assert forall items :: ItemsLeft() == [Marker] + items ==> items == tail;
      fits := Take(1, 0);
    }

    /** Bit 29: back to the standard namespace. */
    method EnterStandard() returns (code: Code)
      requires Valid() && argIndex % 32 == RADIOTAP_NAMESPACE && bitmapShifter % 2 == 1
      modifies this`bitmapShifter, this`argIndex, this`arg, this`thisArg, this`thisArgIndex, this`thisArgSize,
        this`current, this`nextNsData, this`resetOnExt, this`isRadiotapNs
      ensures Valid() && current == if code == Ok then Standard else old(current)
      ensures code == Ok ==> BitsLeft() == old(BitsLeft()) - 1
      ensures code == Ok ==> old(ItemsLeft()) == [Marker] + ItemsLeft() && LayoutLeft() == old(LayoutLeft())
      ensures code != Ok ==> code == Invalid && old(LayoutLeft()) == Layout([], Invalid)
    {
      MarkerFirst();
      ghost var items, layout := ItemsLeft(), LayoutLeft();
      code := Invalid;
      var fits := TakeMarker();
      if fits {
        code := Ok;
        isRadiotapNs, current := true, Standard;
        assert items == ItemsLeft();
        Restart();
        assert items == [Marker] + ItemsLeft() && layout == Place(ItemsLeft(), arg, maxLength);
      }
    }

    /** Bit 31: on to the next presence word. */
    method EnterNextWord() returns (code: Code)
      requires Valid() && argIndex % 32 == EXT && bitmapShifter % 2 == 1
      modifies this`bitmapShifter, this`argIndex, this`nextBitmap, this`resetOnExt
      modifies this`arg, this`thisArg, this`thisArgIndex, this`thisArgSize
      ensures Valid()
      ensures code == Ok ==> BitsLeft() == old(BitsLeft()) - 1
      ensures code == Ok ==> old(ItemsLeft()) == [Marker] + ItemsLeft() && LayoutLeft() == old(LayoutLeft())
      ensures code != Ok ==> code == Invalid && old(LayoutLeft()) == Layout([], Invalid)
    {
      NextWord();
      MarkerFirst();
      code := Invalid;
      var fits := TakeMarker();
      if fits {
        code := Ok;
        Extend();
      }
    }

    /** `layout` with the argument just returned in front. */
    ghost function ThisThen(layout: Layout): Layout
      reads this
    {
      Layout([Placed(thisArgIndex, thisArg, thisArgSize)] + layout.fields, layout.stop)
    }

    /** One presence bit: `code` is Ok unless the walk is over, and `hit` says whether
        there is an argument to return. */
    method Step() returns (code: Code, hit: bool)
      requires Valid()
      modifies this`bitmapShifter, this`argIndex, this`arg, this`thisArg, this`thisArgIndex, this`thisArgSize,
        this`current, this`nextNsData, this`resetOnExt, this`isRadiotapNs, this`nextBitmap
      ensures Valid()
      ensures code == Ok ==> BitsLeft() == old(BitsLeft()) - 1
      ensures code == Ok && hit ==> payload <= thisArg && thisArg + thisArgSize <= maxLength
      ensures old(Plain()) && code == Ok ==>
                Plain() && old(LayoutLeft()) == if hit then ThisThen(LayoutLeft()) else LayoutLeft()
      ensures old(Plain()) && code != Ok ==> old(LayoutLeft()) == Layout([], code)
    {
      var kind := argIndex % 32;
      code, hit := Ok, false;
      if bitmapShifter % 2 == 0 {
        if kind == EXT {
          NothingLeft();
          code := NoEntry;
        } else {
          Shift();
        }
      } else if kind == VENDOR_NAMESPACE {
        VendorFirst();
        code, hit := EnterVendor();
      } else if kind == RADIOTAP_NAMESPACE {
        code := EnterStandard();
      } else if kind == EXT {
        code := EnterNextWord();
      } else if current == Standard {
        code := EnterKnown();
        hit := code == Ok;
      } else {
        code, hit := EnterForeign();
      }
    }

    /** Return the next argument. Every call ends; a call that returns Ok has consumed
        presence bits, and its argument lies after the presence words and within the
        header. On a header without vendor namespaces it is the layout's next field. */
    method Next() returns (code: Code)
      requires Valid()
      modifies this`bitmapShifter, this`argIndex, this`arg, this`thisArg, this`thisArgIndex, this`thisArgSize,
        this`current, this`nextNsData, this`resetOnExt, this`isRadiotapNs, this`nextBitmap
      ensures Valid()
      ensures code == Ok ==> BitsLeft() < old(BitsLeft()) && payload <= thisArg && thisArg + thisArgSize <= maxLength
      ensures old(Plain()) && code == Ok ==> Plain() && old(LayoutLeft()) == ThisThen(LayoutLeft())
      ensures old(Plain()) && code != Ok ==> old(LayoutLeft()) == Layout([], code)
    {
      while true
        invariant Valid()
        invariant BitsLeft() <= old(BitsLeft())
        invariant old(Plain()) ==> Plain() && LayoutLeft() == old(LayoutLeft())
        decreases BitsLeft()
      {
        var step, hit := Step();
        if step != Ok || hit {
          return step;
        }
      }
    }
  }

  /** The loop the iterator is documented for: init, then next until it is not 0. It
      ends for every accepted header, and every argument lies in the header past its
      presence words. If no presence word has bit 30 it yields the layout: the fields of
      the set presence bits in order, all of them unless it meets an unknown one or one
      that does not fit. Each is then as long as its parts and aligned for the widest, and
      those of the first presence word lie where the bits before theirs say. */
  method ReadAll(header: seq<U8>, maxLength: int, vns: seq<Namespace>) returns (fields: seq<Placed>, stop: Code)
    requires maxLength <= |header|
    ensures PayloadStart(header, maxLength).None? ==> fields == [] && stop == Invalid
    ensures PayloadStart(header, maxLength).Some? ==>
              forall f :: f in fields ==>
                PayloadStart(header, maxLength).value <= f.start && f.start + f.size <= Le16(header, 2)
    ensures PayloadStart(header, maxLength).Some? && NoVendor(PresenceWords(header, maxLength)) ==>
              && Layout(fields, stop) == HeaderLayout(header, maxLength)
              && Numbers(fields) <= Present(PresenceWords(header, maxLength), 0)
              && (stop == NoEntry ==> AllKnown(fields, Present(PresenceWords(header, maxLength), 0)))
              && (AllKnown(fields, Present(PresenceWords(header, maxLength), 0)) ==>
                    stop == NoEntry || PayloadStart(header, maxLength).value > Le16(header, 2))
    ensures PayloadStart(header, maxLength).Some? && NoVendor(PresenceWords(header, maxLength)) ==>
              && (forall f :: f in fields ==> Sized(f))
              && forall k: nat :: k <= 23 ==> LiesWhereBitsSay(header, maxLength, fields, stop, k)
  {
    fields := [];
    var it := new Iterator();
    stop := it.Init(header, maxLength, vns);
    if stop == Ok {
      HeaderItemsAreTheBits(header, maxLength);
      fields, stop := ReadRest(it);
      if NoVendor(PresenceWords(header, maxLength)) {
        HeaderTakesPresentFields(header, maxLength);
        HeaderIsSized(header, maxLength);
        forall k: nat | k <= 23 ensures LiesWhereBitsSay(header, maxLength, fields, stop, k) {
          FirstWordLayout(header, maxLength, k);
        }
      }
    }
  }

  method ReadRest(it: Iterator) returns (fields: seq<Placed>, stop: Code)
    requires it.Valid()
    modifies it
    ensures forall f :: f in fields ==> old(it.payload) <= f.start && f.start + f.size <= old(it.maxLength)
    ensures old(it.Plain()) ==> Layout(fields, stop) == old(it.LayoutLeft())
  {
    fields, stop := [], Ok;
    while stop == Ok
      invariant it.Valid() && it.maxLength == old(it.maxLength) && it.payload == old(it.payload)
      invariant forall f :: f in fields ==> it.payload <= f.start && f.start + f.size <= it.maxLength
      invariant old(it.Plain()) ==>
                  if stop == Ok then it.Plain() && old(it.LayoutLeft()) == Before(fields, it.LayoutLeft())
                  else old(it.LayoutLeft()) == Layout(fields, stop)
      decreases stop == Ok, it.BitsLeft()
    {
      stop := it.Next();
      if stop == Ok {
        BeforeOne(fields, Placed(it.thisArgIndex, it.thisArg, it.thisArgSize), it.LayoutLeft());
        fields := fields + [Placed(it.thisArgIndex, it.thisArg, it.thisArgSize)];
      }
    }
  }
}
