/** A set-associative address cache: splitting a machine word into tag, index
    and offset bit slices (cache.h `entry`), and looking an address up in the
    ways of one set (cache.h `cache::get`). Addresses are naturals below 2^64,
    the width of `std::uintptr_t`. */
module Cache {
  import opened Outcomes

  /** Bits in a `std::uintptr_t`. */
  const WordBits: nat := 64

  function Pow2(k: nat): (r: nat)
    ensures r >= 1
  {
    if k == 0 then 1 else 2 * Pow2(k - 1)
  }

  // ---------------------------------------------------------------------
  // Unsigned shifts, bit-field truncation and bitwise or on naturals.
  // ---------------------------------------------------------------------

  /** `x >> k` on an unsigned word. */
  function Shr(x: nat, k: nat): nat
  {
    if k == 0 then x else Shr(x / 2, k - 1)
  }

  /** `x << k` before truncation to the destination width. */
  function Shl(x: nat, k: nat): nat
  {
    if k == 0 then x else 2 * Shl(x, k - 1)
  }

  /** The low `k` bits of `x`: what a store into an unsigned bit-field of
      width `k` keeps. */
  function Low(x: nat, k: nat): (r: nat)
    ensures r < Pow2(k)
  {
    if k == 0 then 0 else 2 * Low(x / 2, k - 1) + x % 2
  }

  /** `a | b` on unsigned values, bit by bit from the least significant. */
  function Or(a: nat, b: nat): nat
    decreases a + b
  {
    if a == 0 && b == 0 then 0
    else 2 * Or(a / 2, b / 2) + (if a % 2 == 1 || b % 2 == 1 then 1 else 0)
  }

  /** `std::bit_width(n)`: the number of bits needed to write `n`; 0 for 0. */
  function BitWidth(n: nat): (w: nat)
    ensures n > 0 ==> w > 0
  {
    if n == 0 then 0 else 1 + BitWidth(n / 2)
  }

  /** `std::has_single_bit(n)`: n is a power of two. */
  predicate HasSingleBit(n: nat)
  {
    n > 0 && Pow2(BitWidth(n) - 1) == n
  }

  lemma {:induction false} BitWidthBelowPow2(k: nat)
    ensures BitWidth(Pow2(k) - 1) == k
  {
    if k > 0 {
      BitWidthBelowPow2(k - 1);
      assert (Pow2(k) - 1) / 2 == Pow2(k - 1) - 1;
    }
  }

  /** A power of two `n` has exactly `bit_width(n - 1)` bits below its single
      set bit: `2^bit_width(n - 1) == n`. */
  lemma {:induction false} SingleBitWidth(n: nat)
    requires HasSingleBit(n)
    ensures Pow2(BitWidth(n - 1)) == n
  {
    BitWidthBelowPow2(BitWidth(n) - 1);
  }

  // ---------------------------------------------------------------------
  // Laws of the bit operations.
  // ---------------------------------------------------------------------

  lemma {:induction false} ShrShr(x: nat, i: nat, o: nat)
    ensures Shr(Shr(x, i), o) == Shr(x, i + o)
  {
    if i > 0 {
      ShrShr(x / 2, i - 1, o);
    }
  }

  /** Every value is its high part shifted back plus its low part. */
  lemma {:induction false} SplitAt(x: nat, k: nat)
    ensures x == Shl(Shr(x, k), k) + Low(x, k)
  {
    if k > 0 {
      SplitAt(x / 2, k - 1);
      ShlDouble(Shr(x / 2, k - 1), k - 1);
    }
  }

  lemma {:induction false} ShlDouble(a: nat, k: nat)
    ensures Shl(2 * a, k) == 2 * Shl(a, k)
  {
    if k > 0 {
      ShlDouble(a, k - 1);
    }
  }

  /** Shifting `a` up by `k` and adding a `k`-bit `b` can be undone. */
  lemma {:induction false} ShrShlPlus(a: nat, b: nat, k: nat)
    requires b < Pow2(k)
    ensures Shr(Shl(a, k) + b, k) == a
    ensures Low(Shl(a, k) + b, k) == b
  {
    if k > 0 {
      var y := Shl(a, k) + b;
      assert y / 2 == Shl(a, k - 1) + b / 2;
      assert y % 2 == b % 2;
      ShrShlPlus(a, b / 2, k - 1);
    }
  }

  lemma {:induction false} LowIdentity(y: nat, k: nat)
    requires y < Pow2(k)
    ensures Low(y, k) == y
  {
    if k > 0 {
      LowIdentity(y / 2, k - 1);
    }
  }

  lemma {:induction false} ShrBound(x: nat, n: nat, k: nat)
    requires x < Pow2(n) && k <= n
    ensures Shr(x, k) < Pow2(n - k)
  {
    if k > 0 {
      ShrBound(x / 2, n - 1, k - 1);
    }
  }

  lemma {:induction false} ShlPlusBound(a: nat, b: nat, n: nat, k: nat)
    requires a < Pow2(n) && b < Pow2(k)
    ensures Shl(a, k) + b < Pow2(n + k)
  {
    if k > 0 {
      ShlPlusBound(a, b / 2, n, k - 1);
    }
  }

  lemma {:induction false} OrZero(a: nat)
    ensures Or(a, 0) == a
    decreases a
  {
    if a > 0 {
      OrZero(a / 2);
    }
  }

  /** Or-ing bits that do not overlap is addition. */
  lemma {:induction false} OrDisjoint(a: nat, b: nat, k: nat)
    requires b < Pow2(k)
    ensures Or(Shl(a, k), b) == Shl(a, k) + b
  {
    if k == 0 {
      OrZero(a);
    } else {
      var s := Shl(a, k - 1);
      OrDisjoint(a, b / 2, k - 1);
      if s == 0 && b == 0 {
      } else {
        assert (2 * s) / 2 == s && (2 * s) % 2 == 0;
        assert Or(2 * s, b) == 2 * Or(s, b / 2) + b % 2;
      }
    }
  }

  lemma {:induction false} OrShl(a: nat, b: nat, k: nat)
    ensures Or(Shl(a, k), Shl(b, k)) == Shl(Or(a, b), k)
  {
    if k > 0 {
      OrShl(a, b, k - 1);
      var x, y := Shl(a, k - 1), Shl(b, k - 1);
      if x == 0 && y == 0 {
      } else {
        assert (2 * x) / 2 == x && (2 * y) / 2 == y;
        assert Or(2 * x, 2 * y) == 2 * Or(x, y);
      }
    }
  }

  /** Division with remainder has one answer. */
  lemma {:induction false} MulAtLeast(a: int, d: int)
    requires a >= 1 && d >= 0
    ensures a * d >= d
    decreases a
  {
    if a > 1 {
      MulAtLeast(a - 1, d);
      assert a * d == (a - 1) * d + d;
    }
  }

  lemma DivModUnique(x: int, d: int, q: int, r: int)
    requires d > 0 && 0 <= r < d && x == q * d + r
    ensures x / d == q && x % d == r
  {
    var q', r' := x / d, x % d;
    assert x == q' * d + r';
    assert (q - q') * d == r' - r;
    if q > q' {
      MulAtLeast(q - q', d);
    } else if q < q' {
      MulAtLeast(q' - q, d);
    }
  }

  lemma DivHalf(x: nat, p: nat)
    requires p > 0
    ensures (x / 2) / p == x / (2 * p)
    ensures x % (2 * p) == 2 * ((x / 2) % p) + x % 2
  {
    var q, r := (x / 2) / p, (x / 2) % p;
    assert x == q * (2 * p) + (2 * r + x % 2);
    DivModUnique(x, 2 * p, q, 2 * r + x % 2);
  }

  /** `x >> k` is `x / 2^k`. */
  lemma {:induction false} ShrIsDiv(x: nat, k: nat)
    ensures Shr(x, k) == x / Pow2(k)
  {
    if k > 0 {
      ShrIsDiv(x / 2, k - 1);
      DivHalf(x, Pow2(k - 1));
    }
  }

  /** Keeping the low `k` bits is `x mod 2^k`. */
  lemma {:induction false} LowIsMod(x: nat, k: nat)
    ensures Low(x, k) == x % Pow2(k)
  {
    if k > 0 {
      LowIsMod(x / 2, k - 1);
      DivHalf(x, Pow2(k - 1));
    }
  }

  // ---------------------------------------------------------------------
  // Geometry and entries (cache.h `entry`).
  // ---------------------------------------------------------------------

  /** A count that is `2^k` and representable in `std::size_t`. */
  predicate PowerCount(n: nat, k: nat)
  {
    n == Pow2(k) && k < WordBits
  }

  /** `static_assert(std::has_single_bit(n))`, `n` representable in
      `std::size_t`, and `k` at its default `std::bit_width(n - 1)`. */
  predicate DefaultWidth(n: nat, k: nat)
  {
    HasSingleBit(n) && n < Pow2(WordBits) && k == BitWidth(n - 1)
  }

  /** The template parameters of `entry`: the number of sets, the line size
      in bytes, and the three slice widths. */
  datatype Geometry = Geometry(setCount: nat, lineSize: nat,
                               indexWidth: nat, offsetWidth: nat, tagWidth: nat)
  {
    /** The slice widths cover the word, each count is two to the power of
        its width, and both counts are representable in `std::size_t`. Lemma
        `ValidIsTemplateCheck` shows this is exactly what the template
        accepts with its default widths. */
    predicate Valid()
    {
      PowerCount(setCount, indexWidth) && PowerCount(lineSize, offsetWidth) &&
      tagWidth + indexWidth + offsetWidth == WordBits && NonZeroWidths()
    }

    /** The two `static_assert`s, both counts representable in `std::size_t`,
        and the widths at their default arguments: `bit_width(SetCount - 1)`,
        `bit_width(LineSize - 1)` and the rest of the word (an unsigned
        `TagWidth` that wrapped would be rejected as a bit-field width). */
    predicate TemplateAccepts()
    {
      DefaultWidth(setCount, indexWidth) && DefaultWidth(lineSize, offsetWidth) &&
      tagWidth + indexWidth + offsetWidth == WordBits && NonZeroWidths()
    }

    /** A named bit-field may not have width 0, so a count of 1 (whose
        default width `bit_width(0)` is 0) is rejected too. */
    predicate NonZeroWidths()
    {
      indexWidth > 0 && offsetWidth > 0 && tagWidth > 0
    }
  }

  lemma {:induction false} BitWidthPow2(k: nat)
    ensures BitWidth(Pow2(k)) == k + 1
  {
    if k > 0 {
      BitWidthPow2(k - 1);
      assert Pow2(k) / 2 == Pow2(k - 1);
    }
  }

  lemma {:induction false} Pow2StrictlyMonotone(i: nat, j: nat)
    requires i < j
    ensures Pow2(i) < Pow2(j)
  {
    if i + 1 < j {
      Pow2StrictlyMonotone(i, j - 1);
    }
  }

  /** A count is two to the power of `k` exactly when it has a single bit and
      `k` is the default width `bit_width(count - 1)`. */
  lemma PowerIsDefaultWidth(n: nat, k: nat)
    ensures n == Pow2(k) <==> HasSingleBit(n) && k == BitWidth(n - 1)
  {
    if n == Pow2(k) {
      BitWidthPow2(k);
      BitWidthBelowPow2(k);
    }
    if HasSingleBit(n) && k == BitWidth(n - 1) {
      SingleBitWidth(n);
    }
  }

  /** `2^k` is representable in a word exactly when `k` is below 64. */
  lemma PowerBelowWord(k: nat)
    ensures Pow2(k) < Pow2(WordBits) <==> k < WordBits
  {
    if k < WordBits {
      Pow2StrictlyMonotone(k, WordBits);
    } else {
      Pow2Monotone(WordBits, k);
    }
  }

  /** One count and its width: the form `Valid` states and the form the
      template checks are the same. */
  lemma CountIsDefault(n: nat, k: nat)
    ensures PowerCount(n, k) <==> DefaultWidth(n, k)
  {
    PowerIsDefaultWidth(n, k);
    PowerBelowWord(k);
  }

  /** `Valid` and the template's own checks agree. */
  lemma ValidIsTemplateCheck(g: Geometry)
    ensures g.Valid() <==> g.TemplateAccepts()
  {
    CountIsDefault(g.setCount, g.indexWidth);
    CountIsDefault(g.lineSize, g.offsetWidth);
  }

  /** `entry<SetCount, LineSize>` with its default widths; `None` when the
      template would not compile. */
  function EntryGeometry(setCount: nat, lineSize: nat): (r: Option<Geometry>)
    ensures r.Some? ==> r.value.TemplateAccepts() &&
                        r.value.setCount == setCount && r.value.lineSize == lineSize
  {
    if setCount == 0 || lineSize == 0 then None
    else
      var iw, ow := BitWidth(setCount - 1), BitWidth(lineSize - 1);
      if iw + ow > WordBits then None
      else
        var g := Geometry(setCount, lineSize, iw, ow, WordBits - iw - ow);
        if g.TemplateAccepts() then Some(g) else None
  }

  /** Every parameter set the template accepts is the one `EntryGeometry`
      builds: the widths are determined by the counts, and `EntryGeometry`
      refuses only what the template refuses. */
  lemma EntryGeometryComplete(g: Geometry)
    requires g.TemplateAccepts()
    ensures EntryGeometry(g.setCount, g.lineSize) == Some(g)
  {
    assert g.setCount > 0 && g.lineSize > 0;
    var iw, ow := BitWidth(g.setCount - 1), BitWidth(g.lineSize - 1);
    assert iw + ow <= WordBits;
    var c := Geometry(g.setCount, g.lineSize, iw, ow, WordBits - iw - ow);
    assert c == g;
  }

  /** One set, or lines of one byte, would give a named bit-field of width
      `bit_width(0) == 0`, which the template refuses. */
  lemma CountOfOneRejected(n: nat)
    ensures EntryGeometry(1, n) == None
    ensures EntryGeometry(n, 1) == None
  {
    assert BitWidth(0) == 0;
  }

  /** The three bit-fields of an `entry`. */
  datatype Entry = Entry(tag: nat, index: nat, offset: nat)

  /** The entry fits its bit-fields. */
  ghost predicate InRange(g: Geometry, e: Entry)
    requires g.Valid()
  {
    e.tag < Pow2(g.tagWidth) && e.index < g.setCount && e.offset < g.lineSize
  }

  /** The three slices of `x`: bits above `iw + ow` cut to `tw` bits, the
      `iw` bits above `ow`, and the low `ow` bits. */
  function Split(x: nat, tw: nat, iw: nat, ow: nat): (e: Entry)
    ensures e.tag < Pow2(tw) && e.index < Pow2(iw) && e.offset < Pow2(ow)
  {
    Entry(tag := Low(Shr(Shr(x, iw), ow), tw),
          index := Low(Shr(x, ow), iw),
          offset := Low(x, ow))
  }

  /** `tag << iw << ow | index << ow | offset`, without truncation. */
  function Assemble(e: Entry, iw: nat, ow: nat): nat
  {
    Or(Or(Shl(Shl(e.tag, iw), ow), Shl(e.index, ow)), e.offset)
  }

  /** `entry::from_ptr`: each field is the address shifted right and
      truncated to the field's width by the bit-field store. */
  function FromPtr(g: Geometry, addr: nat): (e: Entry)
    requires g.Valid() && addr < Pow2(WordBits)
    ensures InRange(g, e)
  {
    Split(addr, g.tagWidth, g.indexWidth, g.offsetWidth)
  }

  /** `entry::as_ptr` as intended: the three fields shifted and or-ed in a
      full `uintptr_t`, where in-range fields always fit. The expression as
      written shifts each bit-field in its promoted type instead; that is
      `AsPtrAsWritten`, which agrees with this only for narrow index and
      offset slices. */
  function AsPtr(g: Geometry, e: Entry): (addr: nat)
    requires g.Valid() && InRange(g, e)
    ensures addr < Pow2(WordBits)
  {
    AssembleValue(e, g.tagWidth, g.indexWidth, g.offsetWidth);
    Assemble(e, g.indexWidth, g.offsetWidth)
  }

  /** Or-ing the three shifted slices adds them. */
  lemma {:induction false} OrOfSlices(t: nat, i: nat, o: nat, iw: nat, ow: nat)
    requires i < Pow2(iw) && o < Pow2(ow)
    ensures Or(Or(Shl(Shl(t, iw), ow), Shl(i, ow)), o) == Shl(Shl(t, iw) + i, ow) + o
  {
    OrShl(Shl(t, iw), i, ow);
    OrDisjoint(t, i, iw);
    OrDisjoint(Shl(t, iw) + i, o, ow);
  }

  /** The assembled slices fit in `tw + iw + ow` bits. */
  lemma {:induction false} AssembledBound(t: nat, i: nat, o: nat, tw: nat, iw: nat, ow: nat)
    requires t < Pow2(tw) && i < Pow2(iw) && o < Pow2(ow)
    ensures Shl(Shl(t, iw) + i, ow) + o < Pow2(tw + iw + ow)
  {
    ShlPlusBound(t, i, tw, iw);
    ShlPlusBound(Shl(t, iw) + i, o, tw + iw, ow);
  }

  /** Assembling three in-range slices adds them, and the sum fits in
      `tw + iw + ow` bits. */
  lemma AssembleValue(e: Entry, tw: nat, iw: nat, ow: nat)
    requires e.tag < Pow2(tw) && e.index < Pow2(iw) && e.offset < Pow2(ow)
    ensures Assemble(e, iw, ow) == Shl(Shl(e.tag, iw) + e.index, ow) + e.offset
    ensures Assemble(e, iw, ow) < Pow2(tw + iw + ow)
  {
    OrOfSlices(e.tag, e.index, e.offset, iw, ow);
    AssembledBound(e.tag, e.index, e.offset, tw, iw, ow);
  }

  /** Cutting a `tw + iw + ow`-bit value into its three slices and putting
      them back together gives the value. */
  lemma {:induction false} AssembleSplit(x: nat, tw: nat, iw: nat, ow: nat)
    requires x < Pow2(tw + iw + ow)
    ensures Assemble(Split(x, tw, iw, ow), iw, ow) == x
  {
    var e := Split(x, tw, iw, ow);
    var hi := Shr(x, ow);
    ShrShr(x, iw, ow);
    ShrShr(x, ow, iw);
    ShrBound(x, tw + iw + ow, iw + ow);
    LowIdentity(Shr(x, iw + ow), tw);
    SplitAt(x, ow);
    SplitAt(hi, iw);
    AssembleValue(e, tw, iw, ow);
  }

  /** The three slices of an assembled value are the ones it was built from. */
  lemma {:induction false} SplitAssemble(e: Entry, tw: nat, iw: nat, ow: nat)
    requires e.tag < Pow2(tw) && e.index < Pow2(iw) && e.offset < Pow2(ow)
    ensures Split(Assemble(e, iw, ow), tw, iw, ow) == e
  {
    var hi := Shl(e.tag, iw) + e.index;
    var y := Shl(hi, ow) + e.offset;
    AssembleValue(e, tw, iw, ow);
    ShrShlPlus(hi, e.offset, ow);
    ShrShlPlus(e.tag, e.index, iw);
    calc {
      Shr(Shr(y, iw), ow);
      { ShrShr(y, iw, ow); }
      Shr(y, iw + ow);
      { ShrShr(y, ow, iw); }
      Shr(Shr(y, ow), iw);
      e.tag;
    }
    LowIdentity(e.tag, tw);
  }

  /** The slices in arithmetic terms: the offset is `x mod 2^ow`, the index
      `(x / 2^ow) mod 2^iw`, and the tag `x / 2^ow / 2^iw`. */
  lemma SplitFields(x: nat, tw: nat, iw: nat, ow: nat)
    requires x < Pow2(tw + iw + ow)
    ensures Split(x, tw, iw, ow).offset == x % Pow2(ow)
    ensures Split(x, tw, iw, ow).index == (x / Pow2(ow)) % Pow2(iw)
    ensures Split(x, tw, iw, ow).tag == (x / Pow2(ow)) / Pow2(iw)
  {
    LowIsMod(x, ow);
    ShrIsDiv(x, ow);
    LowIsMod(Shr(x, ow), iw);
    ShrIsDiv(Shr(x, ow), iw);
    ShrShr(x, iw, ow);
    ShrShr(x, ow, iw);
    ShrBound(x, tw + iw + ow, iw + ow);
    LowIdentity(Shr(x, iw + ow), tw);
  }

  /** `from_ptr` in the terms of the cache: the offset is the address modulo
      the line size, the index is the line number modulo the set count, and
      the tag is the line number divided by the set count. */
  lemma FromPtrFields(g: Geometry, addr: nat)
    requires g.Valid() && addr < Pow2(WordBits)
    ensures FromPtr(g, addr).offset == addr % g.lineSize
    ensures FromPtr(g, addr).index == (addr / g.lineSize) % g.setCount
    ensures FromPtr(g, addr).tag == (addr / g.lineSize) / g.setCount
  {
    SplitFields(addr, g.tagWidth, g.indexWidth, g.offsetWidth);
  }

  /** Splitting an address and assembling it back gives the same address. */
  lemma AsPtrFromPtr(g: Geometry, addr: nat)
    requires g.Valid() && addr < Pow2(WordBits)
    ensures AsPtr(g, FromPtr(g, addr)) == addr
  {
    AssembleSplit(addr, g.tagWidth, g.indexWidth, g.offsetWidth);
  }

  /** Assembling an in-range entry and splitting it gives the same fields. */
  lemma FromPtrAsPtr(g: Geometry, e: Entry)
    requires g.Valid() && InRange(g, e)
    ensures FromPtr(g, AsPtr(g, e)) == e
  {
    SplitAssemble(e, g.tagWidth, g.indexWidth, g.offsetWidth);
  }

  // ---------------------------------------------------------------------
  // `as_ptr` as written: the shifts happen after integral promotion.
  // ---------------------------------------------------------------------

  /** The type of a `std::uintptr_t` bit-field after integral promotion:
      `int` when every value of the field fits in it (width at most 31),
      `unsigned int` when the width is 32, and `std::uintptr_t` itself when
      the field is wider. */
  datatype Promoted = SignedInt | UnsignedInt | Word

  function PromotedType(width: nat): Promoted
  {
    if width <= 31 then SignedInt else if width == 32 then UnsignedInt else Word
  }

  /** The number of bits of a promoted type. */
  function TypeBits(k: Promoted): nat
  {
    if k == Word then WordBits else 32
  }

  /** A value of a promoted type, held as its two's complement bit pattern. */
  datatype Typed = Typed(kind: Promoted, bits: nat)

  /** `x << k` in the type of `x`: undefined (None) unless `k` is below the
      width of the type, and otherwise `x * 2^k` reduced modulo 2^width (the
      rule C++20 gives for signed and unsigned left shifts alike). */
  function ShiftIn(x: Typed, k: nat): Option<Typed>
  {
    if k >= TypeBits(x.kind) then None
    else Some(Typed(x.kind, Shl(x.bits, k) % Pow2(TypeBits(x.kind))))
  }

  /** The value converted to `std::uintptr_t`: a negative `int` is sign
      extended, an unsigned pattern is kept. */
  function Widen(x: Typed): nat
  {
    if x.kind == SignedInt && x.bits >= Pow2(31) then
      Pow2Monotone(32, WordBits);
      x.bits + (Pow2(WordBits) - Pow2(32))
    else x.bits
  }

  /** The type the usual arithmetic conversions give to `a | b`. */
  function CommonType(a: Promoted, b: Promoted): Promoted
  {
    if a == Word || b == Word then Word
    else if a == UnsignedInt || b == UnsignedInt then UnsignedInt
    else SignedInt
  }

  /** `a | b` once both operands are converted to their common type; between
      the two 32-bit types the bit pattern is kept. */
  function BitOr(a: Typed, b: Typed): Typed
  {
    var k := CommonType(a.kind, b.kind);
    if k == Word then Typed(Word, Or(Widen(a), Widen(b)))
    else Typed(k, Or(a.bits, b.bits))
  }

  /** `entry::as_ptr` as written: `tag << IndexWidth << OffsetWidth |
      index << OffsetWidth | offset`, each bit-field promoted before it is
      shifted, and the result converted to `std::uintptr_t`; None where a
      shift is undefined because its count reaches the promoted width. */
  function AsPtrAsWritten(g: Geometry, e: Entry): Option<nat>
  {
    var tag := ShiftIn(Typed(PromotedType(g.tagWidth), e.tag), g.indexWidth);
    if tag.None? then None
    else
      var high := ShiftIn(tag.value, g.offsetWidth);
      var index := ShiftIn(Typed(PromotedType(g.indexWidth), e.index), g.offsetWidth);
      if high.None? || index.None? then None
      else Some(Widen(BitOr(BitOr(high.value, index.value),
                            Typed(PromotedType(g.offsetWidth), e.offset))))
  }

  lemma {:induction false} ShlZero(k: nat)
    ensures Shl(0, k) == 0
  {
    if k > 0 {
      ShlZero(k - 1);
    }
  }

  lemma {:induction false} ShlPow2(i: nat, k: nat)
    ensures Shl(Pow2(i), k) == Pow2(i + k)
  {
    if k > 0 {
      ShlPow2(i, k - 1);
    }
  }

  lemma {:induction false} Pow2Add(a: nat, b: nat)
    ensures Pow2(a + b) == Pow2(a) * Pow2(b)
  {
    if b > 0 {
      Pow2Add(a, b - 1);
      assert Pow2(a + b) == 2 * (Pow2(a) * Pow2(b - 1));
      assert Pow2(a) * Pow2(b) == Pow2(a) * (2 * Pow2(b - 1));
    }
  }

  /** A higher power of two is a multiple of a lower one. */
  lemma Pow2MultipleOf(a: nat, b: nat)
    requires a <= b
    ensures Pow2(b) % Pow2(a) == 0
  {
    var q := Pow2(b - a);
    Pow2Add(a, b - a);
    assert a + (b - a) == b;
    assert Pow2(b) == q * Pow2(a);
    DivModUnique(Pow2(b), Pow2(a), q, 0);
  }

  /** A value below the modulus is its own remainder. */
  lemma ModBelow(x: nat, m: nat)
    requires x < m
    ensures x % m == x
  {
    DivModUnique(x, m, 0, x);
  }

  /** When the index and offset slices together are at most 31 bits wide,
      the promotions do no harm: the tag stays a `uintptr_t`, the shifted
      index fits in a non-negative `int`, and `as_ptr` as written is the
      intended `AsPtr`. */
  lemma AsPtrAsWrittenAgrees(g: Geometry, e: Entry)
    requires g.Valid() && InRange(g, e) && g.indexWidth + g.offsetWidth <= 31
    ensures AsPtrAsWritten(g, e) == Some(AsPtr(g, e))
  {
    var tw, iw, ow := g.tagWidth, g.indexWidth, g.offsetWidth;
    var high, index := Shl(Shl(e.tag, iw), ow), Shl(e.index, ow);
    assert PromotedType(tw) == Word && PromotedType(iw) == SignedInt && PromotedType(ow) == SignedInt;
    Pow2Monotone(tw + iw, WordBits);
    ShlPlusBound(e.tag, 0, tw, iw);
    ShiftFits(Typed(Word, e.tag), iw);
    ShlPlusBound(Shl(e.tag, iw), 0, tw + iw, ow);
    ShiftFits(Typed(Word, Shl(e.tag, iw)), ow);
    Pow2Monotone(iw + ow, 31);
    Pow2Monotone(ow, 31);
    Pow2StrictlyMonotone(31, 32);
    ShlPlusBound(e.index, 0, iw, ow);
    ShiftFits(Typed(SignedInt, e.index), ow);
    assert BitOr(Typed(Word, high), Typed(SignedInt, index)) == Typed(Word, Or(high, index));
  }

  /** A shift whose result fits its type is the plain product. */
  lemma ShiftFits(x: Typed, k: nat)
    requires k < TypeBits(x.kind) && Shl(x.bits, k) < Pow2(TypeBits(x.kind))
    ensures ShiftIn(x, k) == Some(Typed(x.kind, Shl(x.bits, k)))
  {
    ModBelow(Shl(x.bits, k), Pow2(TypeBits(x.kind)));
  }

  /** Once the index and offset slices together are 32 bits or wider, the
      tag is at most 32 bits wide and promotes to a 32-bit type, in which
      shifting it by `IndexWidth + OffsetWidth` loses every bit or is
      undefined. The entry with tag 1, index 0 and offset 0 stands for the
      address 2^(IndexWidth + OffsetWidth), yet as written it comes back as
      the null address, or the shift is undefined. */
  lemma AsPtrAsWrittenDropsTag(g: Geometry)
    requires g.Valid() && g.indexWidth + g.offsetWidth >= 32
    ensures InRange(g, Entry(1, 0, 0))
    ensures AsPtr(g, Entry(1, 0, 0)) == Pow2(g.indexWidth + g.offsetWidth)
    ensures AsPtrAsWritten(g, Entry(1, 0, 0)) ==
      if g.indexWidth < 32 && g.offsetWidth < 32 then Some(0) else None
  {
    var iw, ow := g.indexWidth, g.offsetWidth;
    var e := Entry(1, 0, 0);
    var k := PromotedType(g.tagWidth);
    assert TypeBits(k) == 32;
    Pow2StrictlyMonotone(0, g.tagWidth);
    AssembleValue(e, g.tagWidth, iw, ow);
    ShlOne(iw);
    ShlPow2(iw, ow);
    if iw < 32 && ow < 32 {
      Pow2StrictlyMonotone(iw, 32);
      ShiftFits(Typed(k, 1), iw);
      Pow2MultipleOf(32, iw + ow);
      assert ShiftIn(Typed(k, Pow2(iw)), ow) == Some(Typed(k, 0));
      ShlZero(ow);
      ShiftFits(Typed(SignedInt, 0), ow);
      var low := BitOr(Typed(k, 0), Typed(SignedInt, 0));
      assert low.bits == 0;
      assert BitOr(low, Typed(SignedInt, 0)).bits == 0;
    }
  }

  lemma {:induction false} ShlOne(k: nat)
    ensures Shl(1, k) == Pow2(k)
  {
    if k > 0 {
      ShlOne(k - 1);
    }
  }

  /** `entry<65536, 65536>`: the address 2^32 splits into tag 1, index 0 and
      offset 0, which the intended `AsPtr` puts back together, but as written
      the tag is shifted out of its `unsigned int` and the result is 0. */
  lemma AsPtrAsWrittenExample()
    ensures var g := Geometry(Pow2(16), Pow2(16), 16, 16, 32);
      g.Valid() && Pow2(32) < Pow2(WordBits) &&
      FromPtr(g, Pow2(32)) == Entry(1, 0, 0) &&
      AsPtr(g, FromPtr(g, Pow2(32))) == Pow2(32) &&
      AsPtrAsWritten(g, FromPtr(g, Pow2(32))) == Some(0)
  {
    var g := Geometry(Pow2(16), Pow2(16), 16, 16, 32);
    Pow2StrictlyMonotone(32, WordBits);
    Pow2Add(16, 16);
    FromPtrFields(g, Pow2(32));
    DivModUnique(Pow2(32), Pow2(16), Pow2(16), 0);
    DivModUnique(Pow2(16), Pow2(16), 1, 0);
    AsPtrFromPtr(g, Pow2(32));
    AsPtrAsWrittenDropsTag(g);
  }

  // ---------------------------------------------------------------------
  // Lines, sets and the cache (cache.h `internal::line`, `internal::set`,
  // `cache`).
  // ---------------------------------------------------------------------

  /** A line's tag; the block bytes are never written and are left out. */
  datatype Line = Line(tag: nat)

  /** The location `get` returns: `offset` bytes into the block of line
      `way` of set `index`. */
  datatype Location = Location(index: nat, way: nat, offset: nat)

  /** The first way whose tag equals `tag`, or `|lines|` when none does. */
  function FirstWay(lines: seq<Line>, tag: nat): (w: nat)
    ensures w <= |lines|
    ensures w < |lines| ==> lines[w].tag == tag
    ensures forall j :: 0 <= j < w ==> lines[j].tag != tag
  {
    if lines == [] then 0
    else if lines[0].tag == tag then 0
    else 1 + FirstWay(lines[1..], tag)
  }

  /** The bounds check `get` is meant to make: the access stays inside the line. */
  predicate Fits(g: Geometry, offset: nat, size: nat)
  {
    offset + size <= g.lineSize
  }

  /** The bounds check as written: `e.offset + size > LineSize` is evaluated in
      `std::size_t`, so the sum wraps modulo 2^64 before it is compared. */
  predicate FitsAsWritten(g: Geometry, offset: nat, size: nat)
  {
    (offset + size) % Pow2(WordBits) <= g.lineSize
  }

  /** The wrapped sum lets an access of 2^64 - 1 bytes at offset 1 through,
      although it reaches far past the end of any line. */
  lemma GetSizeWrapsAround(g: Geometry)
    requires g.Valid()
    ensures FitsAsWritten(g, 1, Pow2(WordBits) - 1)
    ensures !Fits(g, 1, Pow2(WordBits) - 1)
  {
    var m := Pow2(WordBits);
    PowerBelowWord(g.offsetWidth);
    assert 1 + (m - 1) == m;
    assert m % m == 0;
  }

  lemma {:induction false} Pow2Monotone(i: nat, j: nat)
    requires i <= j
    ensures Pow2(i) <= Pow2(j)
  {
    if i < j {
      Pow2Monotone(i, j - 1);
    }
  }

  /** A set constructed with `WayCount` lines: `lines.resize(WayCount)` fills
      it with value-initialised lines, whose tag is 0. */
  function NewSet(wayCount: nat): (lines: seq<Line>)
  {
    seq(wayCount, _ => Line(0))
  }

  /** A freshly built set holds exactly `WayCount` lines, and a tag is found
      in it exactly when the tag is 0 and there is at least one way, in way 0. */
  lemma NewSetLookup(wayCount: nat, tag: nat)
    ensures |NewSet(wayCount)| == wayCount
    ensures FirstWay(NewSet(wayCount), tag) ==
      if tag == 0 && wayCount > 0 then 0 else wayCount
  {
    var lines := NewSet(wayCount);
    assert forall j :: 0 <= j < |lines| ==> lines[j].tag == 0;
  }

  /** A direct-mapped cache (`WayCount` 1): the lookup either hits its only
      line or misses. */
  lemma DirectMappedLookup(lines: seq<Line>, tag: nat)
    requires |lines| == 1
    ensures FirstWay(lines, tag) == if lines[0].tag == tag then 0 else 1
  {
  }

  class SetAssociative {
    const geometry: Geometry
    const wayCount: nat
    /** `sets_`: one sequence of lines per set. */
    const sets: array<seq<Line>>

    ghost predicate Valid()
      reads this, sets
    {
      geometry.Valid() && sets.Length == geometry.setCount &&
      forall i :: 0 <= i < sets.Length ==> |sets[i]| == wayCount
    }

    /** `cache<SetCount, WayCount, LineSize>` with its default-constructed sets. */
    constructor (g: Geometry, wayCount: nat)
      requires g.Valid()
      ensures Valid() && fresh(sets)
      ensures geometry == g && this.wayCount == wayCount
      ensures forall i :: 0 <= i < sets.Length ==> sets[i] == NewSet(wayCount)
    {
      geometry := g;
      this.wayCount := wayCount;
      sets := new seq<Line>[g.setCount](_ => NewSet(wayCount));
    }

    /** `direct_mapped_cache<SetCount, LineSize>`: the one-way instance. */
    static method DirectMapped(g: Geometry) returns (c: SetAssociative)
      requires g.Valid()
      ensures c.Valid() && fresh(c) && fresh(c.sets)
      ensures c.geometry == g && c.wayCount == 1
      ensures forall i :: 0 <= i < c.sets.Length ==> c.sets[i] == [Line(0)]
    {
      c := new SetAssociative(g, 1);
    }

    /** `get(ptr, size)` with the bounds check as intended (`Fits`): no
        location when the access would leave the line; otherwise the location
        in the first way of set `index` whose tag matches, and no location
        when none does. Reads and changes nothing. The check as written wraps
        around (`FitsAsWritten`, `GetSizeWrapsAround`). */
    method Get(addr: nat, size: nat) returns (r: Option<Location>)
      requires Valid() && addr < Pow2(WordBits)
      ensures var e := FromPtr(geometry, addr);
        !Fits(geometry, e.offset, size) ==> r == None
      ensures var e := FromPtr(geometry, addr);
        Fits(geometry, e.offset, size) ==>
          var lines := sets[e.index];
          (r.Some? <==> exists w :: 0 <= w < |lines| && lines[w].tag == e.tag) &&
          (r.Some? ==> r.value == Location(e.index, FirstWay(lines, e.tag), e.offset))
    {
      var e := FromPtr(geometry, addr);
      if e.offset + size > geometry.lineSize {
        return None;
      }
      var lines := sets[e.index];
      var w := 0;
      while w < |lines|
        invariant w <= |lines|
        invariant forall j :: 0 <= j < w ==> lines[j].tag != e.tag
      {
        if lines[w].tag == e.tag {
          assert FirstWay(lines, e.tag) == w;
          return Some(Location(e.index, w, e.offset));
        }
        w := w + 1;
      }
      return None;
    }
  }
}
