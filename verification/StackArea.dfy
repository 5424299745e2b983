/** Scratch areas that C# takes from the stack, which aligns nothing by itself. */
module StackArea {
  import opened CoreTypes
  import opened Layout
  import opened Values

  // ----- machine words -----

  /** Bitwise conjunction. */
  function And(x: nat, y: nat): nat {
    if x == 0 || y == 0 then 0 else 2 * And(x / 2, y / 2) + (if x % 2 == 1 && y % 2 == 1 then 1 else 0)
  }

  lemma {:induction false} AndOnes(x: nat, n: nat)
    requires x < Pow2(n)
    ensures And(x, Pow2(n) - 1) == x
  {
    if x > 0 {
      assert (Pow2(n) - 1) / 2 == Pow2(n - 1) - 1 && (Pow2(n) - 1) % 2 == 1;
      AndOnes(x / 2, n - 1);
    }
  }

  lemma AndEven(x: nat, m: nat)
    ensures And(x, 2 * m) == 2 * And(x / 2, m)
  {
    assert (2 * m) / 2 == m && (2 * m) % 2 == 0;
  }

  /** The mask of an alignment clears the bits below it. */
  lemma MaskRounds(x: nat, alignment: nat)
    requires IsAlign(alignment) && x < TWO_32
    ensures And(x, TWO_32 - alignment) == Down(x, alignment)
  {
    hide And;
    Powers();
    if alignment == 1 {
      AndOnes(x, 32);
    } else if alignment == 2 {
      AndEven(x, TWO_32 / 2 - 1);
      AndOnes(x / 2, 31);
      assert x - x % 2 == 2 * (x / 2);
    } else if alignment == 4 {
      AndEven(x, TWO_32 / 2 - 2);
      AndEven(x / 2, TWO_32 / 4 - 1);
      AndOnes(x / 2 / 2, 30);
      Quarters(x);
    } else {
      AndEven(x, TWO_32 / 2 - 4);
      AndEven(x / 2, TWO_32 / 4 - 2);
      AndEven(x / 2 / 2, TWO_32 / 8 - 1);
      AndOnes(x / 2 / 2 / 2, 29);
      Eighths(x);
    }
  }

  lemma Quarters(x: nat)
    ensures x - x % 4 == 4 * (x / 2 / 2)
  {
    var q, r := x / 4, x % 4;
    assert x == 4 * q + r && x / 2 == 2 * q + r / 2;
  }

  lemma Eighths(x: nat)
    ensures x - x % 8 == 8 * (x / 2 / 2 / 2)
  {
    assert x / 2 / 2 == x / 4;
    var q, r := x / 8, x % 8;
    assert x == 8 * q + r && x / 4 == 2 * q + r / 4;
  }

  lemma Powers()
    ensures Pow2(29) == TWO_32 / 8 && Pow2(30) == TWO_32 / 4 && Pow2(31) == TWO_32 / 2 && Pow2(32) == TWO_32
  {
    Pow2Values();
    assert Pow2(32) == 2 * Pow2(31) == 4 * Pow2(30) == 8 * Pow2(29);
  }

  /** The next multiple at or below. */
  function Down(x: nat, alignment: nat): nat
    requires IsAlign(alignment)
  {
    if alignment == 1 then x else if alignment == 2 then x - x % 2 else if alignment == 4 then x - x % 4 else x - x % 8
  }

  /** `AlignStackPtr` on 32-bit words: the negated alignment is its complement. */
  function AlignWord(address: nat, alignment: nat): nat
    requires IsAlign(alignment)
  {
    And((address + (alignment - 1)) % TWO_32, TWO_32 - alignment)
  }

  /** The same on unbounded numbers. */
  function AlignStackPtr(address: nat, alignment: nat): nat
    requires IsAlign(alignment)
  {
    Down(address + (alignment - 1), alignment)
  }

  /** The two agree exactly where the sum does not overflow. */
  lemma WordAligns(address: nat, alignment: nat)
    requires IsAlign(alignment) && address < TWO_32
    ensures AlignWord(address, alignment) < TWO_32
    ensures AlignWord(address, alignment) == AlignStackPtr(address, alignment) <==> address + (alignment - 1) < TWO_32
  {
    hide And;
    MaskRounds((address + (alignment - 1)) % TWO_32, alignment);
    if address + (alignment - 1) >= TWO_32 { Near(address, alignment); }
  }

  /** The least aligned address at or above the given one. */
  lemma AlignsUp(address: nat, alignment: nat)
    requires IsAlign(alignment)
    ensures var r := AlignStackPtr(address, alignment);
            && Aligned(r, alignment) && address <= r < address + alignment
            && forall x: nat | address <= x && Aligned(x, alignment) :: r <= x
  {
    hide AlignStackPtr, Aligned;
    Near(address, alignment);
    forall x: nat | address <= x && Aligned(x, alignment) ensures AlignStackPtr(address, alignment) <= x {
      Nothing(address, alignment, x);
    }
  }

  lemma Near(address: nat, alignment: nat)
    requires IsAlign(alignment)
    ensures var r := AlignStackPtr(address, alignment); Aligned(r, alignment) && address <= r < address + alignment
  {
    if alignment == 8 { Near8(address); } else if alignment == 4 { Near4(address); } else if alignment == 2 { Near2(address); }
  }

  lemma Near8(address: nat)
    ensures var r := (address + 7) - (address + 7) % 8; r % 8 == 0 && address <= r < address + 8
  {
    assert (address + 7) - (address + 7) % 8 == 8 * ((address + 7) / 8);
  }

  lemma Near4(address: nat)
    ensures var r := (address + 3) - (address + 3) % 4; r % 4 == 0 && address <= r < address + 4
  {
    assert (address + 3) - (address + 3) % 4 == 4 * ((address + 3) / 4);
  }

  lemma Near2(address: nat)
    ensures var r := (address + 1) - (address + 1) % 2; r % 2 == 0 && address <= r < address + 2
  {
  }

  /** There is no aligned address in between. */
  lemma Nothing(address: nat, alignment: nat, x: nat)
    requires IsAlign(alignment) && address <= x && Aligned(x, alignment)
    ensures AlignStackPtr(address, alignment) <= x
  {
    if alignment == 8 { Nothing8(address, x); } else if alignment == 4 { Nothing4(address, x); }
  }

  lemma Nothing8(address: nat, x: nat)
    requires address <= x && x % 8 == 0
    ensures (address + 7) - (address + 7) % 8 <= x
  {
  }

  lemma Nothing4(address: nat, x: nat)
    requires address <= x && x % 4 == 0
    ensures (address + 3) - (address + 3) % 4 <= x
  {
  }

  /** `dotnet_aligned_array`: how many elements of `alignment` bytes hold `size` bytes. */
  function AlignedArray(size: nat, alignment: nat): (n: nat)
    requires IsAlign(alignment)
    ensures size <= Times(n, alignment) < size + alignment
  {
    if alignment == 1 then size
    else if alignment == 2 then (size + 1) / 2
    else if alignment == 4 then (size + 3) / 4
    else (size + 7) / 8
  }

  /** One more element, in case the address has to be moved up. */
  function Slack(alignment: nat): nat {
    if alignment > 1 then 1 else 0
  }

  /** The requested bytes, from the aligned address on, lie inside the array at `base`. */
  predicate Fits(base: nat, elements: nat, width: nat, size: nat, alignment: nat)
    requires IsAlign(alignment)
  {
    AlignStackPtr(base, alignment) + size <= base + Times(elements, width)
  }

  lemma TimesAdd(n: nat, m: nat, x: nat)
    ensures Times(n + m, x) == Times(n, x) + Times(m, x)
    decreases m
  {
    if m > 0 {
      TimesAdd(n, m - 1, x);
      TimesStep(n + m, x);
      TimesStep(m, x);
    }
  }

  lemma {:induction false} TimesTimes(n: nat, count: nat, x: nat)
    ensures Times(Times(n, count), x) == Times(count, Times(n, x))
  {
    assert (n * count) * x == count * (n * x);
  }

  lemma {:induction false} TimesMono(count: nat, x: nat, y: nat)
    requires x <= y
    ensures Times(count, x) <= Times(count, y)
  {
    if count > 0 {
      TimesMono(count - 1, x, y);
      TimesStep(count, x);
      TimesStep(count, y);
    }
  }

  /** An array with slack holds the request wherever the stack happens to be. */
  lemma SlackSuffices(base: nat, elements: nat, width: nat, size: nat, alignment: nat)
    requires IsAlign(alignment) && IsAlign(width) && alignment <= width && size <= Times(elements, width)
    ensures Fits(base, elements + Slack(width), width, size, alignment)
  {
    AlignsUp(base, alignment);
    TimesAdd(elements, Slack(width), width);
    assert Times(1, width) == width;
  }

  /** Without slack, an array that is full holds the request only if it is aligned by itself,
      which elements of one byte always are. */
  lemma SlackIsNeeded(base: nat, elements: nat, alignment: nat)
    requires IsAlign(alignment)
    ensures Fits(base, elements, alignment, Times(elements, alignment), alignment) <==> Aligned(base, alignment)
    ensures Slack(alignment) <= 1
    ensures Slack(alignment) == 0 <==> forall b: nat :: Aligned(b, alignment)
  {
    AlignsUp(base, alignment);
    if alignment > 1 { assert !Aligned(1, alignment); }
  }

  /** `ListLower` and `MapLower`: `count` elements of `size` bytes each. */
  function ListArray(size: nat, alignment: nat, count: nat): nat
    requires IsAlign(alignment)
  {
    Times(AlignedArray(size, alignment), count) + Slack(alignment)
  }

  /** The aligned area of all elements lies inside the array. */
  lemma ListFits(base: nat, size: nat, alignment: nat, count: nat)
    requires IsAlign(alignment)
    ensures Fits(base, ListArray(size, alignment, count), alignment, Times(count, size), alignment)
  {
    var n := AlignedArray(size, alignment);
    TimesTimes(n, count, alignment);
    TimesMono(count, size, Times(n, alignment));
    SlackSuffices(base, Times(n, count), alignment, Times(count, size), alignment);
  }

  /** The return areas of one imported function; size and alignment are running maxima. */
  class ImportAreas {
    var size: nat
    var align: nat

    predicate Valid()
      reads this
    {
      IsAlign(align)
    }

    constructor ()
      ensures Valid() && size == 0 && align == 1
    {
      size, align := 0, 1;
    }

    /** The array declared for one request: its length and the width of its elements.
        Wherever it ends up on the stack, the aligned request lies inside it. */
    method ReturnPointer(size: nat, align: nat) returns (elements: nat, width: nat)
      requires Valid() && IsAlign(align)
      modifies this
      ensures Valid() && this.size == Max(old(this.size), size) && this.align == Max(old(this.align), align)
      ensures width == this.align
      ensures forall base: nat :: Fits(base, elements, width, size, align)
    {
      this.size := Max(this.size, size);
      this.align := Max(this.align, align);
      width := this.align;
      var exact := AlignedArray(this.size, width);
      elements := if width > 1 then exact + 1 else exact;
      forall base: nat ensures Fits(base, elements, width, size, align) {
        SlackSuffices(base, exact, width, size, align);
      }
    }
  }
}
