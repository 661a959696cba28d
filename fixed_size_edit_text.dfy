// A fixed-length, box-per-character text input (PIN / one-time-code entry).
// The view keeps one character slot per box, negotiates its size with the
// parent layout, and draws one box per slot from left to right.

module FixedSize {

  datatype Option<T> = None | Some(value: T)

  /**
   * One UTF-16 code unit, the element of Kotlin's `CharSequence` and
   * `CharArray`. A character outside the Basic Multilingual Plane is two of
   * them (a surrogate pair) and takes two slots.
   */
  newtype CodeUnit = c: int | 0 <= c < 0x1_0000

  /** The code unit `'\u0000'`, written into slots that the text does not reach. */
  const Sentinel: CodeUnit := 0

  // ---------------------------------------------------------------------
  // Data model
  // ---------------------------------------------------------------------

  /** The style settings resolved once at construction time. */
  datatype Preferences = Preferences(
    length: nat,        // number of character boxes
    boxWidth: int,
    boxHeight: int,
    spacing: int,       // gap between two neighbouring boxes
    hasBackground: bool // whether a box background drawable is configured
  )

  /** A rectangle as the host toolkit's bounds: edges in pixels. */
  datatype Rect = Rect(left: int, top: int, right: int, bottom: int)

  /** The parent's measurement mode for one axis, already decoded. */
  datatype MeasureMode = Exactly | AtMost | Unspecified | Unknown

  /** What the view hands back to the host toolkit from a text change. */
  datatype HostCall =
    | Invalidate
    | SuperOnTextChanged(text: Option<seq<CodeUnit>>, start: int, lengthBefore: int, lengthAfter: int)

  /** A text change that sets the empty text, starting at 0. */
  predicate IsEmptyTextChange(c: HostCall)
  {
    c.SuperOnTextChanged? && c.text == Some([]) && c.start == 0 && c.lengthAfter == 0
  }

  /** Kotlin's `coerceAtMost`: the value, but no more than `max`. */
  function CoerceAtMost(x: int, max: int): (r: int)
    ensures r <= x && r <= max
    ensures r == x || r == max
  {
    if x > max then max else x
  }

  // ---------------------------------------------------------------------
  // Text ingestion: take at most `length` characters, pad with the sentinel
  // ---------------------------------------------------------------------

  /** Kotlin's `take(n)`: the first `n` characters, or all of them. */
  function Take(s: seq<CodeUnit>, n: nat): (r: seq<CodeUnit>)
    ensures |r| == if |s| < n then |s| else n
    ensures forall i :: 0 <= i < |r| ==> r[i] == s[i]
  {
    if |s| <= n then s else s[..n]
  }

  /** Kotlin's `padEnd(n, c)`: `s` extended with copies of `c` up to length `n`. */
  function PadEnd(s: seq<CodeUnit>, n: nat, c: CodeUnit): (r: seq<CodeUnit>)
    ensures |r| == if |s| < n then n else |s|
    ensures forall i :: 0 <= i < |s| ==> r[i] == s[i]
    ensures forall i :: |s| <= i < |r| ==> r[i] == c
  {
    if |s| >= n then s else s + seq(n - |s|, _ => c)
  }

  /** The buffer contents that a text change with `text` produces. */
  function Ingested(text: seq<CodeUnit>, length: nat): (r: seq<CodeUnit>)
    ensures |r| == length
    ensures forall i :: 0 <= i < length && i < |text| ==> r[i] == text[i]
    ensures forall i :: |text| <= i < length ==> r[i] == Sentinel
  {
    PadEnd(Take(text, length), length, Sentinel)
  }

  /**
   * The text a buffer holds: the slots before the first sentinel. The reading
   * back of what ingestion wrote.
   */
  function VisibleText(buffer: seq<CodeUnit>): (r: seq<CodeUnit>)
    ensures |r| <= |buffer| && r == buffer[..|r|]
    ensures Sentinel !in r
    ensures |r| < |buffer| ==> buffer[|r|] == Sentinel
  {
    if buffer == [] || buffer[0] == Sentinel then []
    else [buffer[0]] + VisibleText(buffer[1..])
  }

  /** The characters of a buffer that precede a sentinel (or its end) are exactly what it shows. */
  lemma {:induction false} VisibleTextOf(p: seq<CodeUnit>, q: seq<CodeUnit>)
    requires Sentinel !in p
    requires q == [] || q[0] == Sentinel
    ensures VisibleText(p + q) == p
  {
    if p == [] {
      assert p + q == q;
    } else {
      assert (p + q)[1..] == p[1..] + q;
      VisibleTextOf(p[1..], q);
    }
  }

  /**
   * Round trip: the buffer shows the text, cut to the capacity, as long as
   * the text itself holds no sentinel character.
   */
  lemma IngestedShowsText(text: seq<CodeUnit>, length: nat)
    requires Sentinel !in text
    ensures VisibleText(Ingested(text, length)) == if |text| <= length then text else text[..length]
  {
    var r := Ingested(text, length);
    var n := if |text| <= length then |text| else length;
    assert r == r[..n] + r[n..];
    assert r[..n] == text[..n];
    assert Sentinel !in text[..n] by {
      forall i | 0 <= i < n ensures text[..n][i] != Sentinel {
        assert text[..n][i] == text[i];
      }
    }
    if n < length {
      assert r[n..][0] == Sentinel;
    }
    VisibleTextOf(r[..n], r[n..]);
    assert text[..|text|] == text;
  }

  /** Ingesting a buffer's own contents again leaves it as it is. */
  lemma IngestedIdempotent(text: seq<CodeUnit>, length: nat)
    ensures Ingested(Ingested(text, length), length) == Ingested(text, length)
  {
  }

  /** Code units beyond the capacity never reach the buffer. */
  lemma IngestedIgnoresOverflow(text: seq<CodeUnit>, extra: seq<CodeUnit>, length: nat)
    requires length <= |text|
    ensures Ingested(text + extra, length) == Ingested(text, length)
  {
  }

  /**
   * Six characters into four boxes keep the first four; two leave two
   * sentinels. A surrogate pair fills two slots, and one slot keeps only the
   * high surrogate.
   */
  lemma IngestedExample()
    ensures Ingested([0x31, 0x32, 0x33, 0x34, 0x35, 0x36], 4) == [0x31, 0x32, 0x33, 0x34]
    ensures Ingested([0x31, 0x32], 4) == [0x31, 0x32, Sentinel, Sentinel]
    ensures Ingested([0xD83D, 0xDE00, 0x31, 0x32], 4) == [0xD83D, 0xDE00, 0x31, 0x32]
    ensures Ingested([0xD83D, 0xDE00, 0x31, 0x32], 1) == [0xD83D]
  {
  }

  // ---------------------------------------------------------------------
  // Size negotiation
  // ---------------------------------------------------------------------

  /** The width that all boxes and the gaps between them take, from the preferences. */
  function NaturalWidth(prefs: Preferences): (r: int)
  {
    (prefs.length - 1) * prefs.spacing + prefs.boxWidth * prefs.length
  }

  /** The measured width for the parent's width mode and size. */
  function MeasureWidth(prefs: Preferences, mode: MeasureMode, size: int): (r: int)
    ensures mode == Exactly ==> r == size
    ensures mode == AtMost ==> r <= size && r <= NaturalWidth(prefs)
    ensures mode == AtMost ==> r == size || r == NaturalWidth(prefs)
    ensures mode == Unspecified ==> r == NaturalWidth(prefs)
    ensures mode == Unknown ==> r == 0
  {
    match mode
    case Exactly => size
    case AtMost => CoerceAtMost(NaturalWidth(prefs), size)
    case Unspecified => NaturalWidth(prefs)
    case Unknown => 0
  }

  /** The measured height for the parent's height mode and size. */
  function MeasureHeight(prefs: Preferences, mode: MeasureMode, size: int): (r: int)
    ensures mode == Exactly ==> r == size
    ensures mode == AtMost ==> r <= size && r <= prefs.boxHeight
    ensures mode == AtMost ==> r == size || r == prefs.boxHeight
    ensures mode == Unspecified ==> r == prefs.boxHeight
    ensures mode == Unknown ==> r == 0
  {
    match mode
    case Exactly => size
    case AtMost => CoerceAtMost(prefs.boxHeight, size)
    case Unspecified => prefs.boxHeight
    case Unknown => 0
  }

  // ---------------------------------------------------------------------
  // Box layout
  // ---------------------------------------------------------------------

  /** Box `i` of the row: boxes of the given size, `spacing` apart, starting at x = 0. */
  function BoxAt(i: nat, boxWidth: int, boxHeight: int, spacing: int, top: int): (r: Rect)
  {
    Rect(i * (boxWidth + spacing), top, i * (boxWidth + spacing) + boxWidth, top + boxHeight)
  }

  /** The closed form agrees with the drawing step: each box starts `spacing` after the previous one ends. */
  lemma BoxAtStep(i: nat, boxWidth: int, boxHeight: int, spacing: int, top: int)
    ensures BoxAt(i + 1, boxWidth, boxHeight, spacing, top)
         == BoxAt(i, boxWidth, boxHeight, spacing, top).(
              left := BoxAt(i, boxWidth, boxHeight, spacing, top).right + spacing,
              right := BoxAt(i, boxWidth, boxHeight, spacing, top).right + spacing + boxWidth)
  {
  }

  /**
   * With unscaled dimensions, the last box ends exactly at the natural width
   * and every box is exactly the natural height tall.
   */
  lemma BoxesSpanNaturalSize(prefs: Preferences, top: int)
    requires prefs.length >= 1
    ensures BoxAt(prefs.length - 1, prefs.boxWidth, prefs.boxHeight, prefs.spacing, top).right
         == NaturalWidth(prefs)
    ensures BoxAt(prefs.length - 1, prefs.boxWidth, prefs.boxHeight, prefs.spacing, top).bottom - top
         == MeasureHeight(prefs, Unspecified, 0)
  {
  }

  /**
   * When the parent allows at least the natural width, the measured width
   * holds every box of the unscaled row.
   */
  lemma AtMostWidthHoldsBoxes(prefs: Preferences, size: int, i: nat, top: int)
    requires prefs.boxWidth >= 0 && prefs.spacing >= 0
    requires i < prefs.length
    requires NaturalWidth(prefs) <= size
    ensures 0 <= BoxAt(i, prefs.boxWidth, prefs.boxHeight, prefs.spacing, top).left
    ensures BoxAt(i, prefs.boxWidth, prefs.boxHeight, prefs.spacing, top).right
         <= MeasureWidth(prefs, AtMost, size)
  {
  }

  // ---------------------------------------------------------------------
  // Mutable state: the current box dimensions and the view itself
  // ---------------------------------------------------------------------

  /** The effective box dimensions, adjusted when the view's size is committed. */
  class Properties {
    var boxWidth: int
    var boxHeight: int
    var spacing: int

    constructor (boxWidth: int, boxHeight: int, spacing: int)
      ensures this.boxWidth == boxWidth && this.boxHeight == boxHeight && this.spacing == spacing
    {
      this.boxWidth := boxWidth;
      this.boxHeight := boxHeight;
      this.spacing := spacing;
    }

    /** The height clamp of the size adjustment: boxes are never taller than the committed height. */
    method AdjustBoxHeight(maxHeight: int)
      modifies this`boxHeight
      ensures boxHeight <= old(boxHeight) && boxHeight <= maxHeight
      ensures boxHeight == old(boxHeight) || boxHeight == maxHeight
    {
      boxHeight := CoerceAtMost(boxHeight, maxHeight);
    }
  }

  /** Clamping twice to the same committed height changes nothing more. */
  lemma AdjustBoxHeightIdempotent(boxHeight: int, maxHeight: int)
    ensures CoerceAtMost(CoerceAtMost(boxHeight, maxHeight), maxHeight) == CoerceAtMost(boxHeight, maxHeight)
  {
  }

  /** A caller's view: repeating the height adjustment with the same height is a no-op. */
  method AdjustBoxHeightTwice(props: Properties, maxHeight: int)
    modifies props`boxHeight
    ensures props.boxHeight == CoerceAtMost(old(props.boxHeight), maxHeight)
  {
    props.AdjustBoxHeight(maxHeight);
    ghost var once := props.boxHeight;
    props.AdjustBoxHeight(maxHeight);
    assert props.boxHeight == once;
  }

  class FixedSizeEditText {
    const prefs: Preferences
    const props: Properties
    /** One slot per box; its length is fixed at construction. */
    const characters: array<CodeUnit>
    /** False while the base constructor and the initialiser still run. */
    var ready: bool
    /** The calls made back into the host toolkit, in order. */
    var hostCalls: seq<HostCall>

    ghost predicate Valid()
      reads this
    {
      characters.Length == prefs.length
    }

    /**
     * Builds the view. Every text change reported before the constructor body
     * has run reaches `OnTextChanged` while the view is not ready, and so goes
     * to the base handler: first those of the base constructor
     * (`baseChanges`), then those of the initialiser (`initChanges`), whose
     * `setTextIsSelectable(true)` re-sets the current text and whose last
     * change is the empty text it sets itself.
     */
    constructor (prefs: Preferences, baseChanges: seq<HostCall>, initChanges: seq<HostCall>)
      requires forall c | c in baseChanges :: c.SuperOnTextChanged?
      requires forall c | c in initChanges :: c.SuperOnTextChanged?
      requires initChanges != [] && IsEmptyTextChange(initChanges[|initChanges| - 1])
      ensures Valid() && ready
      ensures this.prefs == prefs && fresh(characters) && fresh(props)
      ensures characters[..] == seq(prefs.length, _ => Sentinel)
      ensures props.boxWidth == prefs.boxWidth && props.boxHeight == prefs.boxHeight
      ensures props.spacing == prefs.spacing
      ensures hostCalls == baseChanges + initChanges
    {
      this.prefs := prefs;
      props := new Properties(prefs.boxWidth, prefs.boxHeight, prefs.spacing);
      characters := new CodeUnit[prefs.length](_ => Sentinel);
      ready := false;
      hostCalls := [];
      new;
      var changes := baseChanges + initChanges;
      var k := 0;
      while k < |changes|
        invariant 0 <= k <= |changes|
        invariant Valid() && !ready
        invariant characters[..] == seq(prefs.length, _ => Sentinel)
        invariant hostCalls == changes[..k]
        invariant props.boxWidth == prefs.boxWidth && props.boxHeight == prefs.boxHeight
        invariant props.spacing == prefs.spacing
      {
        var c := changes[k];
        assert c in baseChanges || c in initChanges;
        OnTextChanged(c.text, c.start, c.lengthBefore, c.lengthAfter);
        assert changes[..k + 1] == changes[..k] + [c];
        k := k + 1;
      }
      assert changes[..k] == changes;
      ready := true;
    }

    /**
     * A text change: once ready and with a text, every slot is overwritten
     * with the text cut to the capacity and padded with the sentinel, and a
     * redraw is requested; otherwise the base handler gets the change.
     */
    method OnTextChanged(text: Option<seq<CodeUnit>>, start: int, lengthBefore: int, lengthAfter: int)
      requires Valid()
      modifies characters, this`hostCalls
      ensures Valid()
      ensures ready && text.Some? ==> characters[..] == Ingested(text.value, prefs.length)
      ensures ready && text.Some? ==> hostCalls == old(hostCalls) + [Invalidate]
      ensures !(ready && text.Some?) ==> characters[..] == old(characters[..])
      ensures !(ready && text.Some?) ==>
        hostCalls == old(hostCalls) + [SuperOnTextChanged(text, start, lengthBefore, lengthAfter)]
    {
      if ready && text.Some? {
        var padded := PadEnd(Take(text.value, prefs.length), prefs.length, Sentinel);
        var index := 0;
        while index < |padded|
          invariant 0 <= index <= |padded| == characters.Length
          invariant characters[..index] == padded[..index]
          invariant hostCalls == old(hostCalls)
        {
          characters[index] := padded[index];
          index := index + 1;
        }
        assert characters[..] == characters[..index];
        hostCalls := hostCalls + [Invalidate];
      } else {
        hostCalls := hostCalls + [SuperOnTextChanged(text, start, lengthBefore, lengthAfter)];
      }
    }

    /**
     * The box bounds a draw pass gives the background drawable, in drawing
     * order. The first box starts at x = 0 at the clip's top; every further
     * box starts `spacing` after the previous one ends.
     */
    method DrawBoxes(clipTop: int) returns (boxes: seq<Rect>)
      requires Valid()
      requires prefs.hasBackground ==> prefs.length >= 1
      ensures !prefs.hasBackground ==> boxes == []
      ensures prefs.hasBackground ==> |boxes| == prefs.length
      ensures forall i :: 0 <= i < |boxes| ==>
        boxes[i] == BoxAt(i, props.boxWidth, props.boxHeight, props.spacing, clipTop)
    {
      boxes := [];
      if prefs.hasBackground {
        var bounds := Rect(0, clipTop, props.boxWidth, clipTop + props.boxHeight);
        boxes := boxes + [bounds];
        var i := 1;
        while i < characters.Length
          invariant 1 <= i <= characters.Length
          invariant |boxes| == i
          invariant bounds == BoxAt(i - 1, props.boxWidth, props.boxHeight, props.spacing, clipTop)
          invariant forall k :: 0 <= k < i ==>
            boxes[k] == BoxAt(k, props.boxWidth, props.boxHeight, props.spacing, clipTop)
        {
          BoxAtStep(i - 1, props.boxWidth, props.boxHeight, props.spacing, clipTop);
          bounds := bounds.(left := bounds.right + props.spacing,
                            right := bounds.right + props.spacing + props.boxWidth);
          boxes := boxes + [bounds];
          i := i + 1;
        }
      }
    }
  }
}
