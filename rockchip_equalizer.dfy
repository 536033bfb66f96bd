/**
 * The Rockchip equalizer/DRC audio effect (`RockchipEqualizer`): the fixed
 * 2180-byte `Settings` layout exchanged with the effect engine, each nested
 * block's serialiser and `ByteBuffer` reader, the preset-name table and the
 * decoding of raw parameter-change events.
 *
 * Every `float` field is kept as the opaque 32-bit word `ByteBuffer.putFloat`
 * writes (its raw IEEE-754 bits); no arithmetic is done on them. The buffers use
 * the platform's native byte order, which is little-endian on the devices this
 * code runs on.
 */
module RockchipEqualizer {
  import opened Wrappers
  import opened Numerals

  type Byte = b: int | 0 <= b < 256

  /** The raw bits of a `float` (or the two's-complement bits of an `int`). */
  type Word = w: int | 0 <= w < 0x1_0000_0000

  type Words2 = s: seq<Word> | |s| == 2 witness [0, 0]
  type Words3 = s: seq<Word> | |s| == 3 witness [0, 0, 0]
  type Words4 = s: seq<Word> | |s| == 4 witness [0, 0, 0, 0]
  type Words5 = s: seq<Word> | |s| == 5 witness [0, 0, 0, 0, 0]
  type Words6 = s: seq<Word> | |s| == 6 witness [0, 0, 0, 0, 0, 0]
  type Words8 = s: seq<Word> | |s| == 8 witness [0, 0, 0, 0, 0, 0, 0, 0]
  type Words9 = s: seq<Word> | |s| == 9 witness [0, 0, 0, 0, 0, 0, 0, 0, 0]
  type Words10 = s: seq<Word> | |s| == 10 witness [0, 0, 0, 0, 0, 0, 0, 0, 0, 0]
  type Words104 = s: seq<Word> | |s| == 104 witness seq(104, i => 0)

  const NUM_CHANNELS: nat := 2
  const NUM_BANDS: nat := 10
  /** `Settings.toBytes` allocates this many bytes; `getProperties` reads as many. */
  const SETTINGS_SIZE: nat := 2180
  const PARAM_STRING_SIZE_MAX: nat := 32

  // ------------------------------------------------------------ words and bytes

  /** A word in little-endian byte order. */
  function WordBytes(w: Word): (r: seq<Byte>)
    ensures |r| == 4
  {
    var q1 := w / 256;
    var q2 := q1 / 256;
    [w % 256, q1 % 256, q2 % 256, q2 / 256]
  }

  /** The little-endian word in the first four bytes. */
  function WordOf(b: seq<Byte>): Word
    requires |b| >= 4
  {
    var hi := b[2] as int + 256 * (b[3] as int);
    b[0] as int + 256 * (b[1] as int + 256 * hi)
  }

  /** Four bytes and a word are the same thing, read either way. */
  lemma WordBijection(w: Word, b: seq<Byte>)
    ensures WordOf(WordBytes(w)) == w
    ensures |b| == 4 ==> WordBytes(WordOf(b)) == b
  {
    var q1 := w / 256;
    var q2 := q1 / 256;
    assert w == q1 * 256 + w % 256;
    assert q1 == q2 * 256 + q1 % 256;
    assert q2 == (q2 / 256) * 256 + q2 % 256;
    if |b| == 4 {
      var hi := b[2] as int + 256 * (b[3] as int);
      var mid := b[1] as int + 256 * hi;
      var v := b[0] as int + 256 * mid;
      assert v % 256 == b[0] && v / 256 == mid;
      assert mid % 256 == b[1] && mid / 256 == hi;
      assert hi % 256 == b[2] && hi / 256 == b[3];
    }
  }

  /** `putInt` stores the two's-complement bits; `getInt` reads them back as a signed value. */
  function IntWord(v: int): Word
    requires IsInt32(v)
  {
    v % TWO_32
  }

  lemma IntWordRoundTrip(v: int)
    requires IsInt32(v)
    ensures Wrap32(IntWord(v)) == v
  {
  }

  /** The words in order, each in little-endian byte order. */
  function WordsBytes(ws: seq<Word>): (r: seq<Byte>)
    ensures |r| == 4 * |ws|
  {
    seq(4 * |ws|, i requires 0 <= i < 4 * |ws| => WordBytes(ws[i / 4])[i % 4])
  }

  /** The whole little-endian words of `bs`; a trailing partial word is ignored. */
  function WordsOf(bs: seq<Byte>): (r: seq<Word>)
    ensures |r| == |bs| / 4
  {
    seq(|bs| / 4, k requires 0 <= k < |bs| / 4 => WordOf(bs[4 * k..4 * k + 4]))
  }

  lemma WordsBytesAt(ws: seq<Word>, k: nat)
    requires k < |ws|
    ensures WordsBytes(ws)[4 * k..4 * k + 4] == WordBytes(ws[k])
  {
    var bs := WordsBytes(ws);
    forall j | 0 <= j < 4
      ensures bs[4 * k..4 * k + 4][j] == WordBytes(ws[k])[j]
    {
      assert (4 * k + j) / 4 == k && (4 * k + j) % 4 == j;
    }
  }

  lemma WordsRoundTrip(ws: seq<Word>)
    ensures WordsOf(WordsBytes(ws)) == ws
  {
    forall k | 0 <= k < |ws|
      ensures WordsOf(WordsBytes(ws))[k] == ws[k]
    {
      WordsBytesAt(ws, k);
      WordBijection(ws[k], []);
    }
  }

  /** Reading whole words and writing them back gives the bytes up to the last whole word. */
  lemma BytesRoundTrip(bs: seq<Byte>)
    ensures WordsBytes(WordsOf(bs)) == bs[..4 * (|bs| / 4)]
  {
    var ws := WordsOf(bs);
    forall i | 0 <= i < 4 * |ws|
      ensures WordsBytes(ws)[i] == bs[i]
    {
      var k, j := i / 4, i % 4;
      assert i == 4 * k + j;
      var b := bs[4 * k..4 * k + 4];
      WordBijection(0, b);
      assert WordBytes(ws[k]) == b;
    }
  }

  function Zeros(n: nat): (r: seq<Byte>)
    ensures |r| == n
  {
    seq(n, i => 0)
  }

  /** The concatenation of `f` over `xs`. */
  function FlatMap<T>(xs: seq<T>, f: T -> seq<Word>): seq<Word> {
    if xs == [] then [] else f(xs[0]) + FlatMap(xs[1..], f)
  }

  lemma {:induction false} FlatMapSnoc<T>(xs: seq<T>, x: T, f: T -> seq<Word>)
    ensures FlatMap(xs + [x], f) == FlatMap(xs, f) + f(x)
  {
    if xs == [] {
      assert xs + [x] == [x];
    } else {
      assert (xs + [x])[0] == xs[0];
      assert (xs + [x])[1..] == xs[1..] + [x];
      FlatMapSnoc(xs[1..], x, f);
    }
  }

  lemma FlatMapPair<T>(xs: seq<T>, f: T -> seq<Word>)
    requires |xs| == 2
    ensures FlatMap(xs, f) == f(xs[0]) + f(xs[1])
  {
    assert xs[1..][1..] == [];
    assert FlatMap(xs[1..], f) == f(xs[1]) + FlatMap(xs[1..][1..], f);
  }

  lemma AppendAssoc(a: seq<Word>, b: seq<Word>, c: seq<Word>)
    ensures (a + b) + c == a + (b + c)
  {
  }

  lemma ConcatInjective(a1: seq<Word>, b1: seq<Word>, a2: seq<Word>, b2: seq<Word>)
    requires |a1| == |a2| && a1 + b1 == a2 + b2
    ensures a1 == a2 && b1 == b2
  {
    assert a1 == (a1 + b1)[..|a1|];
    assert a2 == (a2 + b2)[..|a2|];
    assert b1 == (a1 + b1)[|a1|..];
    assert b2 == (a2 + b2)[|a2|..];
  }

  /** Equal concatenations of same-length, injective pieces come from equal sequences. */
  lemma {:induction false} FlatMapInjective<T>(xs: seq<T>, ys: seq<T>, f: T -> seq<Word>, size: nat)
    requires |xs| == |ys|
    requires forall x :: |f(x)| == size
    requires forall x, y :: f(x) == f(y) ==> x == y
    requires FlatMap(xs, f) == FlatMap(ys, f)
    ensures xs == ys
  {
    if xs != [] {
      ConcatInjective(f(xs[0]), FlatMap(xs[1..], f), f(ys[0]), FlatMap(ys[1..], f));
      FlatMapInjective(xs[1..], ys[1..], f, size);
      assert xs == [xs[0]] + xs[1..];
      assert ys == [ys[0]] + ys[1..];
    }
  }

  lemma {:induction false} FlatMapLength<T>(xs: seq<T>, f: T -> seq<Word>, size: nat)
    requires forall x :: |f(x)| == size
    ensures |FlatMap(xs, f)| == size * |xs|
  {
    if xs != [] {
      FlatMapLength(xs[1..], f, size);
    }
  }

  // ------------------------------------------------------------ java.nio.ByteBuffer

  /**
   * The part of `java.nio.ByteBuffer` the serialisers use. An allocated buffer
   * is filled from the start: `written` is the words put so far and the rest of
   * its `capacity` bytes are still zero. A wrapped array is read through
   * `unread`, the whole words after the cursor; `consumed` are those before it.
   */
  class ByteBuffer {
    const capacity: nat
    var written: seq<Word>
    var unread: seq<Word>
    ghost const contents: seq<Word>
    ghost var consumed: seq<Word>

    /** `ByteBuffer.allocate(capacity)`. */
    constructor Allocate(capacity: nat)
      ensures this.capacity == capacity && written == []
    {
      this.capacity := capacity;
      written := [];
      unread := WordsOf(Zeros(capacity));
      contents := unread;
      consumed := [];
    }

    /** `ByteBuffer.wrap(array)`. */
    constructor Wrap(bytes: seq<Byte>)
      ensures capacity == |bytes| && contents == unread == WordsOf(bytes) && consumed == [] && Reading()
    {
      capacity := |bytes|;
      written := [];
      unread := WordsOf(bytes);
      contents := unread;
      consumed := [];
    }

    /** `putFloat`; a full buffer would throw `BufferOverflowException`. */
    method PutFloat(w: Word)
      requires 4 * |written| + 4 <= capacity
      modifies this`written
      ensures written == old(written) + [w]
    {
      written := written + [w];
    }

    /** `putInt`. */
    method PutInt(v: int)
      requires IsInt32(v) && 4 * |written| + 4 <= capacity
      modifies this`written
      ensures written == old(written) + [IntWord(v)]
    {
      PutFloat(IntWord(v));
    }

    /** `for (float val : ws) putFloat(val)`. */
    method PutFloats(ws: seq<Word>)
      requires 4 * |written| + 4 * |ws| <= capacity
      modifies this`written
      ensures written == old(written) + ws
    {
      for i := 0 to |ws|
        invariant written == old(written) + ws[..i]
      {
        PutFloat(ws[i]);
        assert ws[..i + 1] == ws[..i] + [ws[i]];
      }
      assert ws[..|ws|] == ws;
    }

    /** `put(byte[])` of a block serialised as the words `ws`. */
    method Put(bytes: seq<Byte>, ghost ws: seq<Word>)
      requires bytes == WordsBytes(ws) && 4 * (|written| + |ws|) <= capacity
      modifies this`written
      ensures written == old(written) + ws
    {
      WordsRoundTrip(ws);
      written := written + WordsOf(bytes);
    }

    /** `array()` of an allocated buffer: the words put, then zeros up to the capacity. */
    function Array(): (r: seq<Byte>)
      reads this
      requires 4 * |written| <= capacity
      ensures |r| == capacity
    {
      WordsBytes(written) + Zeros(capacity - 4 * |written|)
    }

    /** A wrapped buffer being read: the words consumed so far, then the unread ones. */
    ghost predicate Reading()
      reads this
    {
      consumed + unread == contents
    }

    /** `getFloat`; an exhausted buffer would throw `BufferUnderflowException`. */
    method GetFloat() returns (w: Word)
      requires Reading() && |unread| >= 1
      modifies this`unread, this`consumed
      ensures Reading() && consumed == old(consumed) + [w] && |unread| == old(|unread|) - 1
    {
      w := unread[0];
      assert unread == [w] + unread[1..];
      unread := unread[1..];
      consumed := consumed + [w];
    }

    /** `getInt`: the next word as a signed 32-bit value. */
    method GetInt() returns (v: Int32)
      requires Reading() && |unread| >= 1
      modifies this`unread, this`consumed
      ensures IsInt32(v) && Reading() && consumed == old(consumed) + [IntWord(v)] && |unread| == old(|unread|) - 1
    {
      var w := GetFloat();
      v := Wrap32(w);
      assert IntWord(v) == w;
    }

    /** `for (i < n) a[i] = getFloat()`. */
    method GetFloats(n: nat) returns (ws: seq<Word>)
      requires Reading() && |unread| >= n
      modifies this`unread, this`consumed
      ensures Reading() && |ws| == n && consumed == old(consumed) + ws && |unread| == old(|unread|) - n
    {
      ws := [];
      for i := 0 to n
        invariant Reading() && |ws| == i && consumed == old(consumed) + ws && |unread| == old(|unread|) - i
      {
        var w := GetFloat();
        ws := ws + [w];
      }
    }
  }

  // ------------------------------------------------------------ blocks
  //
  // Each block of `Settings` is a value with its serialised layout `Words()`, a
  // reader (the block's `ByteBuffer` constructor) that consumes exactly that
  // layout, and `toBytes`, which produces it.

  datatype Speaker = Speaker(preGain: Word, reserved: Words4)
  {
    function Words(): (r: seq<Word>)
      ensures |r| == 5
    {
      [preGain] + reserved
    }

    /** `Speaker(ByteBuffer)`. */
    static method FromBuffer(converter: ByteBuffer) returns (s: Speaker)
      requires converter.Reading() && |converter.unread| >= 5
      modifies converter`unread, converter`consumed
      ensures converter.Reading() && converter.consumed == old(converter.consumed) + s.Words()
      ensures |converter.unread| == old(|converter.unread|) - 5
    {
      var preGain := converter.GetFloat();
      var reserved := converter.GetFloats(4);
      s := Speaker(preGain, reserved);
    }

    method ToBytes() returns (bytes: seq<Byte>)
      ensures bytes == WordsBytes(Words()) && |bytes| == 20
    {
      var converter := new ByteBuffer.Allocate(20);
      converter.PutFloat(preGain);
      converter.PutFloats(reserved);
      bytes := converter.Array();
    }
  }

  datatype AutoGain = AutoGain(targetIDb: Word, attackTime: Word, releaseTime: Word, r128Wins: Word,
                               r128Steps: Word, reserved: Words5)
  {
    function Words(): (r: seq<Word>)
      ensures |r| == 10
    {
      [targetIDb, attackTime, releaseTime, r128Wins, r128Steps] + reserved
    }

    static method FromBuffer(converter: ByteBuffer) returns (a: AutoGain)
      requires converter.Reading() && |converter.unread| >= 10
      modifies converter`unread, converter`consumed
      ensures converter.Reading() && converter.consumed == old(converter.consumed) + a.Words()
      ensures |converter.unread| == old(|converter.unread|) - 10
    {
      var fields := converter.GetFloats(5);
      var targetIDb := fields[0];
      var attackTime := fields[1];
      var releaseTime := fields[2];
      var r128Wins := fields[3];
      var r128Steps := fields[4];
      var reserved := converter.GetFloats(5);
      a := AutoGain(targetIDb, attackTime, releaseTime, r128Wins, r128Steps, reserved);
    }

    method ToBytes() returns (bytes: seq<Byte>)
      ensures bytes == WordsBytes(Words()) && |bytes| == 40
    {
      var converter := new ByteBuffer.Allocate(40);
      converter.PutFloats([targetIDb, attackTime, releaseTime, r128Wins, r128Steps]);
      converter.PutFloats(reserved);
      assert converter.written == Words();
      bytes := converter.Array();
    }
  }

  datatype BassEnhancer = BassEnhancer(amountDb: Word, drive: Word, blend: Word, freq: Word, floorActive: Word,
                                       floorFreq: Word, reserved: Words4)
  {
    function Words(): (r: seq<Word>)
      ensures |r| == 10
    {
      [amountDb, drive, blend, freq, floorActive, floorFreq] + reserved
    }

    static method FromBuffer(converter: ByteBuffer) returns (b: BassEnhancer)
      requires converter.Reading() && |converter.unread| >= 10
      modifies converter`unread, converter`consumed
      ensures converter.Reading() && converter.consumed == old(converter.consumed) + b.Words()
      ensures |converter.unread| == old(|converter.unread|) - 10
    {
      var fields := converter.GetFloats(6);
      var amountDb := fields[0];
      var drive := fields[1];
      var blend := fields[2];
      var freq := fields[3];
      var floorActive := fields[4];
      var floorFreq := fields[5];
      var reserved := converter.GetFloats(4);
      b := BassEnhancer(amountDb, drive, blend, freq, floorActive, floorFreq, reserved);
    }

    method ToBytes() returns (bytes: seq<Byte>)
      ensures bytes == WordsBytes(Words()) && |bytes| == 40
    {
      var converter := new ByteBuffer.Allocate(40);
      converter.PutFloats([amountDb, drive, blend, freq, floorActive, floorFreq]);
      converter.PutFloats(reserved);
      assert converter.written == Words();
      bytes := converter.Array();
    }
  }

  /** The exciter has a single reserved float, not an array. */
  datatype Exciter = Exciter(eventHarmonics: Word, distortionAmount: Word, cutoff: Word, mix: Word, reserved: Word)
  {
    function Words(): (r: seq<Word>)
      ensures |r| == 5
    {
      [eventHarmonics, distortionAmount, cutoff, mix, reserved]
    }

    static method FromBuffer(converter: ByteBuffer) returns (e: Exciter)
      requires converter.Reading() && |converter.unread| >= 5
      modifies converter`unread, converter`consumed
      ensures converter.Reading() && converter.consumed == old(converter.consumed) + e.Words()
      ensures |converter.unread| == old(|converter.unread|) - 5
    {
      var fields := converter.GetFloats(5);
      var eventHarmonics := fields[0];
      var distortionAmount := fields[1];
      var cutoff := fields[2];
      var mix := fields[3];
      var reserved := fields[4];
      e := Exciter(eventHarmonics, distortionAmount, cutoff, mix, reserved);
    }

    method ToBytes() returns (bytes: seq<Byte>)
      ensures bytes == WordsBytes(Words()) && |bytes| == 20
    {
      var converter := new ByteBuffer.Allocate(20);
      converter.PutFloats([eventHarmonics, distortionAmount, cutoff, mix, reserved]);
      assert converter.written == Words();
      bytes := converter.Array();
    }
  }

  datatype Deesser = Deesser(f0: Word, threshold: Word, reserved: Words3)
  {
    function Words(): (r: seq<Word>)
      ensures |r| == 5
    {
      [f0, threshold] + reserved
    }

    static method FromBuffer(converter: ByteBuffer) returns (d: Deesser)
      requires converter.Reading() && |converter.unread| >= 5
      modifies converter`unread, converter`consumed
      ensures converter.Reading() && converter.consumed == old(converter.consumed) + d.Words()
      ensures |converter.unread| == old(|converter.unread|) - 5
    {
      var fields := converter.GetFloats(2);
      var f0 := fields[0];
      var threshold := fields[1];
      var reserved := converter.GetFloats(3);
      d := Deesser(f0, threshold, reserved);
    }

    method ToBytes() returns (bytes: seq<Byte>)
      ensures bytes == WordsBytes(Words()) && |bytes| == 20
    {
      var converter := new ByteBuffer.Allocate(20);
      converter.PutFloats([f0, threshold]);
      converter.PutFloats(reserved);
      assert converter.written == Words();
      bytes := converter.Array();
    }
  }

  datatype EqBand = EqBand(enabled: Word, filter: Word, fc: Word, q: Word, boost: Word)
  {
    function Words(): (r: seq<Word>)
      ensures |r| == 5
    {
      [enabled, filter, fc, q, boost]
    }

    static method FromBuffer(converter: ByteBuffer) returns (b: EqBand)
      requires converter.Reading() && |converter.unread| >= 5
      modifies converter`unread, converter`consumed
      ensures converter.Reading() && converter.consumed == old(converter.consumed) + b.Words()
      ensures |converter.unread| == old(|converter.unread|) - 5
    {
      var fields := converter.GetFloats(5);
      var enabled := fields[0];
      var filter := fields[1];
      var fc := fields[2];
      var q := fields[3];
      var boost := fields[4];
      b := EqBand(enabled, filter, fc, q, boost);
    }

    method ToBytes() returns (bytes: seq<Byte>)
      ensures bytes == WordsBytes(Words()) && |bytes| == 20
    {
      var converter := new ByteBuffer.Allocate(20);
      converter.PutFloats([enabled, filter, fc, q, boost]);
      assert converter.written == Words();
      bytes := converter.Array();
    }
  }

  function EqBandWords(b: EqBand): (r: seq<Word>)
    ensures |r| == 5
  {
    b.Words()
  }

  /**
   * The ten-band equalizer. `setBands` accepts any number of bands, but
   * `toBytes` indexes bands 0 to 9, so an `Eq` with fewer bands cannot be
   * serialised and one with more has its extra bands dropped.
   */
  datatype Eq = Eq(bands: seq<EqBand>)
  {
    predicate Writable() { |bands| >= NUM_BANDS }

    function Words(): (r: seq<Word>)
      requires Writable()
      ensures |r| == 50
    {
      FlatMapLength(bands[..NUM_BANDS], EqBandWords, 5);
      FlatMap(bands[..NUM_BANDS], EqBandWords)
    }

    /** `Eq(ByteBuffer)`: ten bands in order. */
    static method FromBuffer(converter: ByteBuffer) returns (e: Eq)
      requires converter.Reading() && |converter.unread| >= 50
      modifies converter`unread, converter`consumed
      ensures |e.bands| == NUM_BANDS && converter.Reading() && converter.consumed == old(converter.consumed) + e.Words()
      ensures |converter.unread| == old(|converter.unread|) - 50
    {
      var bands: seq<EqBand> := [];
      for i := 0 to NUM_BANDS
        invariant |bands| == i && |converter.unread| == |old(converter.unread)| - 5 * i && converter.Reading()
        invariant converter.consumed == old(converter.consumed) + FlatMap(bands, EqBandWords)
      {
        var b := EqBand.FromBuffer(converter);
        FlatMapSnoc(bands, b, EqBandWords);
        bands := bands + [b];
      }
      e := Eq(bands);
      assert bands[..NUM_BANDS] == bands;
    }

    /** `toBytes`; `None` where indexing a missing band throws. */
    method ToBytes() returns (bytes: Option<seq<Byte>>)
      ensures bytes.Some? <==> Writable()
      ensures bytes.Some? ==> bytes.value == WordsBytes(Words()) && |bytes.value| == 200
    {
      if |bands| < NUM_BANDS {
        return None;
      }
      var converter := new ByteBuffer.Allocate(200);
      for i := 0 to NUM_BANDS
        invariant converter.capacity == 200 && converter.written == FlatMap(bands[..i], EqBandWords)
        invariant |converter.written| == 5 * i
      {
        var b := bands[i].ToBytes();
        converter.Put(b, bands[i].Words());
        FlatMapSnoc(bands[..i], bands[i], EqBandWords);
        assert bands[..i + 1] == bands[..i] + [bands[i]];
      }
      bytes := Some(converter.Array());
    }
  }

  datatype MbdrcFreq = MbdrcFreq(freqStart: Word, freqEnd: Word, gainDb: Word, drcEnabled: Word,
                                 compressStart: Word, expandEnd: Word, noiseThreshold: Word, maxGain: Word,
                                 maxPeek: Word, attackTime: Word, releaseTime: Word, holdTime: Word,
                                 reserved: Words8)
  {
    function Words(): (r: seq<Word>)
      ensures |r| == 20
    {
      [freqStart, freqEnd, gainDb, drcEnabled, compressStart, expandEnd, noiseThreshold, maxGain,
       maxPeek, attackTime, releaseTime, holdTime] + reserved
    }

    static method FromBuffer(converter: ByteBuffer) returns (f: MbdrcFreq)
      requires converter.Reading() && |converter.unread| >= 20
      modifies converter`unread, converter`consumed
      ensures converter.Reading() && converter.consumed == old(converter.consumed) + f.Words()
      ensures |converter.unread| == old(|converter.unread|) - 20
    {
      var fields := converter.GetFloats(12);
      var freqStart := fields[0];
      var freqEnd := fields[1];
      var gainDb := fields[2];
      var drcEnabled := fields[3];
      var compressStart := fields[4];
      var expandEnd := fields[5];
      var noiseThreshold := fields[6];
      var maxGain := fields[7];
      var maxPeek := fields[8];
      var attackTime := fields[9];
      var releaseTime := fields[10];
      var holdTime := fields[11];
      var reserved := converter.GetFloats(8);
      f := MbdrcFreq(freqStart, freqEnd, gainDb, drcEnabled, compressStart, expandEnd, noiseThreshold, maxGain,
                     maxPeek, attackTime, releaseTime, holdTime, reserved);
    }

    method ToBytes() returns (bytes: seq<Byte>)
      ensures bytes == WordsBytes(Words()) && |bytes| == 80
    {
      var converter := new ByteBuffer.Allocate(80);
      converter.PutFloats([freqStart, freqEnd, gainDb, drcEnabled, compressStart, expandEnd, noiseThreshold,
                           maxGain, maxPeek, attackTime, releaseTime, holdTime]);
      converter.PutFloats(reserved);
      assert converter.written == Words();
      bytes := converter.Array();
    }
  }

  /** The multi-band DRC: a crossover word and four frequency bands. */
  datatype Mbdrc = Mbdrc(crossBand: Word, reserved1: Words9, lowFreq: MbdrcFreq, medFreq1: MbdrcFreq,
                         medFreq2: MbdrcFreq, highFreq: MbdrcFreq, reserved2: Words10)
  {
    function Words(): (r: seq<Word>)
      ensures |r| == 100
    {
      [crossBand] + reserved1 + lowFreq.Words() + medFreq1.Words() + medFreq2.Words() + highFreq.Words()
      + reserved2
    }

    static method FromBuffer(converter: ByteBuffer) returns (m: Mbdrc)
      requires converter.Reading() && |converter.unread| >= 100
      modifies converter`unread, converter`consumed
      ensures converter.Reading() && converter.consumed == old(converter.consumed) + m.Words()
      ensures |converter.unread| == old(|converter.unread|) - 100
    {
      ghost var start := converter.consumed;
      var crossBand := converter.GetFloat();
      var reserved1 := converter.GetFloats(9);
      AppendAssoc(start, [crossBand], reserved1);
      ghost var read := [crossBand] + reserved1;
      var lowFreq := MbdrcFreq.FromBuffer(converter);
      AppendAssoc(start, read, lowFreq.Words());
      read := read + lowFreq.Words();
      var medFreq1 := MbdrcFreq.FromBuffer(converter);
      AppendAssoc(start, read, medFreq1.Words());
      read := read + medFreq1.Words();
      var medFreq2 := MbdrcFreq.FromBuffer(converter);
      AppendAssoc(start, read, medFreq2.Words());
      read := read + medFreq2.Words();
      var highFreq := MbdrcFreq.FromBuffer(converter);
      AppendAssoc(start, read, highFreq.Words());
      read := read + highFreq.Words();
      var reserved2 := converter.GetFloats(10);
      AppendAssoc(start, read, reserved2);
      m := Mbdrc(crossBand, reserved1, lowFreq, medFreq1, medFreq2, highFreq, reserved2);
    }

    method ToBytes() returns (bytes: seq<Byte>)
      ensures bytes == WordsBytes(Words()) && |bytes| == 400
    {
      var converter := new ByteBuffer.Allocate(400);
      converter.PutFloat(crossBand);
      converter.PutFloats(reserved1);
      assert converter.written == [crossBand] + reserved1;
      var low := lowFreq.ToBytes();
      converter.Put(low, lowFreq.Words());
      var med1 := medFreq1.ToBytes();
      converter.Put(med1, medFreq1.Words());
      var med2 := medFreq2.ToBytes();
      converter.Put(med2, medFreq2.Words());
      var high := highFreq.ToBytes();
      converter.Put(high, highFreq.Words());
      converter.PutFloats(reserved2);
      bytes := converter.Array();
    }
  }

  datatype Maximizer = Maximizer(maxThreshold: Word, ceiling: Word, release: Word)
  {
    function Words(): (r: seq<Word>)
      ensures |r| == 3
    {
      [maxThreshold, ceiling, release]
    }

    static method FromBuffer(converter: ByteBuffer) returns (m: Maximizer)
      requires converter.Reading() && |converter.unread| >= 3
      modifies converter`unread, converter`consumed
      ensures converter.Reading() && converter.consumed == old(converter.consumed) + m.Words()
      ensures |converter.unread| == old(|converter.unread|) - 3
    {
      var fields := converter.GetFloats(3);
      var maxThreshold := fields[0];
      var ceiling := fields[1];
      var release := fields[2];
      m := Maximizer(maxThreshold, ceiling, release);
    }

    method ToBytes() returns (bytes: seq<Byte>)
      ensures bytes == WordsBytes(Words()) && |bytes| == 12
    {
      var converter := new ByteBuffer.Allocate(12);
      converter.PutFloats([maxThreshold, ceiling, release]);
      assert converter.written == Words();
      bytes := converter.Array();
    }
  }

  datatype Agc = Agc(compressStart: Word, expandEnd: Word, noiseThreshold: Word, maxGain: Word, maxPeek: Word,
                     attackTime: Word, releaseTime: Word, holdTime: Word, reserved: Words9)
  {
    function Words(): (r: seq<Word>)
      ensures |r| == 17
    {
      [compressStart, expandEnd, noiseThreshold, maxGain, maxPeek, attackTime, releaseTime, holdTime] + reserved
    }

    static method FromBuffer(converter: ByteBuffer) returns (a: Agc)
      requires converter.Reading() && |converter.unread| >= 17
      modifies converter`unread, converter`consumed
      ensures converter.Reading() && converter.consumed == old(converter.consumed) + a.Words()
      ensures |converter.unread| == old(|converter.unread|) - 17
    {
      var fields := converter.GetFloats(8);
      var compressStart := fields[0];
      var expandEnd := fields[1];
      var noiseThreshold := fields[2];
      var maxGain := fields[3];
      var maxPeek := fields[4];
      var attackTime := fields[5];
      var releaseTime := fields[6];
      var holdTime := fields[7];
      var reserved := converter.GetFloats(9);
      a := Agc(compressStart, expandEnd, noiseThreshold, maxGain, maxPeek, attackTime, releaseTime, holdTime,
               reserved);
    }

    method ToBytes() returns (bytes: seq<Byte>)
      ensures bytes == WordsBytes(Words()) && |bytes| == 68
    {
      var converter := new ByteBuffer.Allocate(68);
      converter.PutFloats([compressStart, expandEnd, noiseThreshold, maxGain, maxPeek, attackTime, releaseTime,
                           holdTime]);
      converter.PutFloats(reserved);
      assert converter.written == Words();
      bytes := converter.Array();
    }
  }

  // ------------------------------------------------------------ injectivity of the block layouts

  lemma SpeakerInjective(a: Speaker, b: Speaker)
    requires a.Words() == b.Words()
    ensures a == b
  {
    ConcatInjective([a.preGain], a.reserved, [b.preGain], b.reserved);
  }

  lemma AutoGainInjective(a: AutoGain, b: AutoGain)
    requires a.Words() == b.Words()
    ensures a == b
  {
    ConcatInjective([a.targetIDb, a.attackTime, a.releaseTime, a.r128Wins, a.r128Steps], a.reserved,
                    [b.targetIDb, b.attackTime, b.releaseTime, b.r128Wins, b.r128Steps], b.reserved);
  }

  lemma BassEnhancerInjective(a: BassEnhancer, b: BassEnhancer)
    requires a.Words() == b.Words()
    ensures a == b
  {
    ConcatInjective([a.amountDb, a.drive, a.blend, a.freq, a.floorActive, a.floorFreq], a.reserved,
                    [b.amountDb, b.drive, b.blend, b.freq, b.floorActive, b.floorFreq], b.reserved);
  }

  lemma ExciterInjective(a: Exciter, b: Exciter)
    requires a.Words() == b.Words()
    ensures a == b
  {
    assert a.Words()[4] == b.Words()[4];
  }

  lemma DeesserInjective(a: Deesser, b: Deesser)
    requires a.Words() == b.Words()
    ensures a == b
  {
    ConcatInjective([a.f0, a.threshold], a.reserved, [b.f0, b.threshold], b.reserved);
  }

  lemma EqBandInjective(a: EqBand, b: EqBand)
    requires a.Words() == b.Words()
    ensures a == b
  {
    assert a.Words()[4] == b.Words()[4];
  }

  lemma EqInjective(a: Eq, b: Eq)
    requires |a.bands| == NUM_BANDS && |b.bands| == NUM_BANDS && a.Words() == b.Words()
    ensures a == b
  {
    forall x: EqBand, y: EqBand | EqBandWords(x) == EqBandWords(y)
      ensures x == y
    {
      EqBandInjective(x, y);
    }
    assert a.bands[..NUM_BANDS] == a.bands && b.bands[..NUM_BANDS] == b.bands;
    FlatMapInjective(a.bands, b.bands, EqBandWords, 5);
  }

  lemma MbdrcFreqInjective(a: MbdrcFreq, b: MbdrcFreq)
    requires a.Words() == b.Words()
    ensures a == b
  {
    ConcatInjective([a.freqStart, a.freqEnd, a.gainDb, a.drcEnabled, a.compressStart, a.expandEnd,
                     a.noiseThreshold, a.maxGain, a.maxPeek, a.attackTime, a.releaseTime, a.holdTime], a.reserved,
                    [b.freqStart, b.freqEnd, b.gainDb, b.drcEnabled, b.compressStart, b.expandEnd,
                     b.noiseThreshold, b.maxGain, b.maxPeek, b.attackTime, b.releaseTime, b.holdTime], b.reserved);
  }

  lemma MbdrcInjective(a: Mbdrc, b: Mbdrc)
    requires a.Words() == b.Words()
    ensures a == b
  {
    var a5 := [a.crossBand] + a.reserved1 + a.lowFreq.Words() + a.medFreq1.Words() + a.medFreq2.Words();
    var b5 := [b.crossBand] + b.reserved1 + b.lowFreq.Words() + b.medFreq1.Words() + b.medFreq2.Words();
    ConcatInjective(a5 + a.highFreq.Words(), a.reserved2, b5 + b.highFreq.Words(), b.reserved2);
    ConcatInjective(a5, a.highFreq.Words(), b5, b.highFreq.Words());
    var a3 := [a.crossBand] + a.reserved1 + a.lowFreq.Words();
    var b3 := [b.crossBand] + b.reserved1 + b.lowFreq.Words();
    ConcatInjective(a3 + a.medFreq1.Words(), a.medFreq2.Words(), b3 + b.medFreq1.Words(), b.medFreq2.Words());
    ConcatInjective(a3, a.medFreq1.Words(), b3, b.medFreq1.Words());
    ConcatInjective([a.crossBand] + a.reserved1, a.lowFreq.Words(), [b.crossBand] + b.reserved1, b.lowFreq.Words());
    ConcatInjective([a.crossBand], a.reserved1, [b.crossBand], b.reserved1);
    MbdrcFreqInjective(a.lowFreq, b.lowFreq);
    MbdrcFreqInjective(a.medFreq1, b.medFreq1);
    MbdrcFreqInjective(a.medFreq2, b.medFreq2);
    MbdrcFreqInjective(a.highFreq, b.highFreq);
  }

  lemma MaximizerInjective(a: Maximizer, b: Maximizer)
    requires a.Words() == b.Words()
    ensures a == b
  {
    assert a.Words()[2] == b.Words()[2];
  }

  lemma AgcInjective(a: Agc, b: Agc)
    requires a.Words() == b.Words()
    ensures a == b
  {
    ConcatInjective([a.compressStart, a.expandEnd, a.noiseThreshold, a.maxGain, a.maxPeek, a.attackTime,
                     a.releaseTime, a.holdTime], a.reserved,
                    [b.compressStart, b.expandEnd, b.noiseThreshold, b.maxGain, b.maxPeek, b.attackTime,
                     b.releaseTime, b.holdTime], b.reserved);
  }

  // ------------------------------------------------------------ Settings

  type Int32 = x: int | INT_MIN <= x <= INT_MAX

  // `Channels` takes a block's layout as a function value, and a datatype
  // member cannot be passed as one (two lambdas are never provably equal),
  // so each block kind has its layout as a named function here.

  function SpeakerWords(x: Speaker): (r: seq<Word>)
    ensures |r| == 5
  {
    x.Words()
  }

  function AutoGainWords(x: AutoGain): (r: seq<Word>)
    ensures |r| == 10
  {
    x.Words()
  }

  function BassEnhancerWords(x: BassEnhancer): (r: seq<Word>)
    ensures |r| == 10
  {
    x.Words()
  }

  function ExciterWords(x: Exciter): (r: seq<Word>)
    ensures |r| == 5
  {
    x.Words()
  }

  function DeesserWords(x: Deesser): (r: seq<Word>)
    ensures |r| == 5
  {
    x.Words()
  }

  function MbdrcWords(x: Mbdrc): (r: seq<Word>)
    ensures |r| == 100
  {
    x.Words()
  }


  /** The blocks of the first `n` channels, one after the other. */
  function Channels<T>(xs: seq<T>, f: T -> seq<Word>, n: nat): seq<Word>
    requires n <= |xs|
  {
    if n == 0 then [] else Channels(xs, f, n - 1) + f(xs[n - 1])
  }

  lemma {:induction false} ChannelsAgree<T>(xs: seq<T>, ys: seq<T>, f: T -> seq<Word>, n: nat)
    requires n <= |xs| && n <= |ys| && xs[..n] == ys[..n]
    ensures Channels(xs, f, n) == Channels(ys, f, n)
  {
    if n > 0 {
      assert xs[n - 1] == xs[..n][n - 1];
      assert ys[n - 1] == ys[..n][n - 1];
      assert xs[..n - 1] == xs[..n][..n - 1];
      assert ys[..n - 1] == ys[..n][..n - 1];
      ChannelsAgree(xs, ys, f, n - 1);
    }
  }

  lemma {:induction false} ChannelsLength<T>(xs: seq<T>, f: T -> seq<Word>, size: nat, n: nat)
    requires n <= |xs| && forall x :: |f(x)| == size
    ensures |Channels(xs, f, n)| == size * n
  {
    if n > 0 {
      ChannelsLength(xs, f, size, n - 1);
    }
  }

  lemma {:induction false} ChannelsInjective<T>(xs: seq<T>, ys: seq<T>, f: T -> seq<Word>, size: nat, n: nat)
    requires n <= |xs| && n <= |ys|
    requires forall x :: |f(x)| == size
    requires forall x, y :: f(x) == f(y) ==> x == y
    requires Channels(xs, f, n) == Channels(ys, f, n)
    ensures xs[..n] == ys[..n]
  {
    if n > 0 {
      ChannelsLength(xs, f, size, n - 1);
      ChannelsLength(ys, f, size, n - 1);
      ConcatInjective(Channels(xs, f, n - 1), f(xs[n - 1]), Channels(ys, f, n - 1), f(ys[n - 1]));
      ChannelsInjective(xs, ys, f, size, n - 1);
      assert xs[..n] == xs[..n - 1] + [xs[n - 1]];
      assert ys[..n] == ys[..n - 1] + [ys[n - 1]];
    }
  }

  /** The equalizers of the first `n` channels. */
  function EqsWords(eqs: seq<Eq>, n: nat): (r: seq<Word>)
    requires n <= |eqs| && forall i :: 0 <= i < n ==> eqs[i].Writable()
    ensures |r| == 50 * n
  {
    if n == 0 then [] else EqsWords(eqs, n - 1) + eqs[n - 1].Words()
  }

  /** The maximizer and AGC blocks alternate, channel by channel. */
  function MaxAgcWords(ms: seq<Maximizer>, agcs: seq<Agc>, n: nat): (r: seq<Word>)
    requires n <= |ms| && n <= |agcs|
    ensures |r| == 20 * n
  {
    if n == 0 then [] else MaxAgcWords(ms, agcs, n - 1) + ms[n - 1].Words() + agcs[n - 1].Words()
  }

  /** The `toBytes` loop over the speaker blocks of both channels. */
  method PutSpeakers(converter: ByteBuffer, xs: seq<Speaker>)
    requires |xs| >= NUM_CHANNELS && 4 * (|converter.written| + 10) <= converter.capacity
    modifies converter`written
    ensures converter.written == old(converter.written) + Channels(xs, SpeakerWords, NUM_CHANNELS)
    ensures |converter.written| == old(|converter.written|) + 10
  {
    ghost var mark := converter.written;
    for i := 0 to NUM_CHANNELS
      invariant converter.written == mark + Channels(xs, SpeakerWords, i)
      invariant |converter.written| == |mark| + 5 * i
    {
      var b := xs[i].ToBytes();
      converter.Put(b, xs[i].Words());
      AppendAssoc(mark, Channels(xs, SpeakerWords, i), SpeakerWords(xs[i]));
    }
  }

  /** The `toBytes` loop over the auto-gain blocks of both channels. */
  method PutAutoGains(converter: ByteBuffer, xs: seq<AutoGain>)
    requires |xs| >= NUM_CHANNELS && 4 * (|converter.written| + 20) <= converter.capacity
    modifies converter`written
    ensures converter.written == old(converter.written) + Channels(xs, AutoGainWords, NUM_CHANNELS)
    ensures |converter.written| == old(|converter.written|) + 20
  {
    ghost var mark := converter.written;
    for i := 0 to NUM_CHANNELS
      invariant converter.written == mark + Channels(xs, AutoGainWords, i)
      invariant |converter.written| == |mark| + 10 * i
    {
      var b := xs[i].ToBytes();
      converter.Put(b, xs[i].Words());
      AppendAssoc(mark, Channels(xs, AutoGainWords, i), AutoGainWords(xs[i]));
    }
  }

  /** The `toBytes` loop over the bass-enhancer blocks of both channels. */
  method PutBassEnhancers(converter: ByteBuffer, xs: seq<BassEnhancer>)
    requires |xs| >= NUM_CHANNELS && 4 * (|converter.written| + 20) <= converter.capacity
    modifies converter`written
    ensures converter.written == old(converter.written) + Channels(xs, BassEnhancerWords, NUM_CHANNELS)
    ensures |converter.written| == old(|converter.written|) + 20
  {
    ghost var mark := converter.written;
    for i := 0 to NUM_CHANNELS
      invariant converter.written == mark + Channels(xs, BassEnhancerWords, i)
      invariant |converter.written| == |mark| + 10 * i
    {
      var b := xs[i].ToBytes();
      converter.Put(b, xs[i].Words());
      AppendAssoc(mark, Channels(xs, BassEnhancerWords, i), BassEnhancerWords(xs[i]));
    }
  }

  /** The `toBytes` loop over the exciter blocks of both channels. */
  method PutExciters(converter: ByteBuffer, xs: seq<Exciter>)
    requires |xs| >= NUM_CHANNELS && 4 * (|converter.written| + 10) <= converter.capacity
    modifies converter`written
    ensures converter.written == old(converter.written) + Channels(xs, ExciterWords, NUM_CHANNELS)
    ensures |converter.written| == old(|converter.written|) + 10
  {
    ghost var mark := converter.written;
    for i := 0 to NUM_CHANNELS
      invariant converter.written == mark + Channels(xs, ExciterWords, i)
      invariant |converter.written| == |mark| + 5 * i
    {
      var b := xs[i].ToBytes();
      converter.Put(b, xs[i].Words());
      AppendAssoc(mark, Channels(xs, ExciterWords, i), ExciterWords(xs[i]));
    }
  }

  /** The `toBytes` loop over the de-esser blocks of both channels. */
  method PutDeessers(converter: ByteBuffer, xs: seq<Deesser>)
    requires |xs| >= NUM_CHANNELS && 4 * (|converter.written| + 10) <= converter.capacity
    modifies converter`written
    ensures converter.written == old(converter.written) + Channels(xs, DeesserWords, NUM_CHANNELS)
    ensures |converter.written| == old(|converter.written|) + 10
  {
    ghost var mark := converter.written;
    for i := 0 to NUM_CHANNELS
      invariant converter.written == mark + Channels(xs, DeesserWords, i)
      invariant |converter.written| == |mark| + 5 * i
    {
      var b := xs[i].ToBytes();
      converter.Put(b, xs[i].Words());
      AppendAssoc(mark, Channels(xs, DeesserWords, i), DeesserWords(xs[i]));
    }
  }

  /** The `toBytes` loop over the multi-band DRC blocks of both channels. */
  method PutMbdrcs(converter: ByteBuffer, xs: seq<Mbdrc>)
    requires |xs| >= NUM_CHANNELS && 4 * (|converter.written| + 200) <= converter.capacity
    modifies converter`written
    ensures converter.written == old(converter.written) + Channels(xs, MbdrcWords, NUM_CHANNELS)
    ensures |converter.written| == old(|converter.written|) + 200
  {
    ghost var mark := converter.written;
    for i := 0 to NUM_CHANNELS
      invariant converter.written == mark + Channels(xs, MbdrcWords, i)
      invariant |converter.written| == |mark| + 100 * i
    {
      var b := xs[i].ToBytes();
      converter.Put(b, xs[i].Words());
      AppendAssoc(mark, Channels(xs, MbdrcWords, i), MbdrcWords(xs[i]));
    }
  }

  /** The `toBytes` loop over the equalizers of both channels. */
  method PutEqs(converter: ByteBuffer, eqs: seq<Eq>)
    requires |eqs| >= NUM_CHANNELS && eqs[0].Writable() && eqs[1].Writable()
    requires 4 * (|converter.written| + 100) <= converter.capacity
    modifies converter`written
    ensures converter.written == old(converter.written) + EqsWords(eqs, NUM_CHANNELS)
    ensures |converter.written| == old(|converter.written|) + 100
  {
    ghost var mark := converter.written;
    for i := 0 to NUM_CHANNELS
      invariant converter.written == mark + EqsWords(eqs, i)
      invariant |converter.written| == |mark| + 50 * i
    {
      var b := eqs[i].ToBytes();
      converter.Put(b.value, eqs[i].Words());
      AppendAssoc(mark, EqsWords(eqs, i), eqs[i].Words());
    }
  }

  /** The `toBytes` loop that writes each channel's maximizer followed by its AGC. */
  method PutMaxAgcs(converter: ByteBuffer, ms: seq<Maximizer>, agcs: seq<Agc>)
    requires |ms| >= NUM_CHANNELS && |agcs| >= NUM_CHANNELS
    requires 4 * (|converter.written| + 40) <= converter.capacity
    modifies converter`written
    ensures converter.written == old(converter.written) + MaxAgcWords(ms, agcs, NUM_CHANNELS)
    ensures |converter.written| == old(|converter.written|) + 40
  {
    ghost var mark := converter.written;
    for i := 0 to NUM_CHANNELS
      invariant converter.written == mark + MaxAgcWords(ms, agcs, i)
      invariant |converter.written| == |mark| + 20 * i
    {
      var m := ms[i].ToBytes();
      converter.Put(m, ms[i].Words());
      AppendAssoc(mark, MaxAgcWords(ms, agcs, i), ms[i].Words());
      var a := agcs[i].ToBytes();
      converter.Put(a, agcs[i].Words());
      AppendAssoc(mark, MaxAgcWords(ms, agcs, i) + ms[i].Words(), agcs[i].Words());
    }
  }

  lemma ChannelsSnoc<T>(xs: seq<T>, x: T, f: T -> seq<Word>)
    ensures Channels(xs + [x], f, |xs| + 1) == Channels(xs, f, |xs|) + f(x)
  {
    assert (xs + [x])[..|xs|] == xs[..|xs|];
    ChannelsAgree(xs + [x], xs, f, |xs|);
  }

  lemma {:induction false} EqsSnoc(eqs: seq<Eq>, e: Eq, n: nat)
    requires n <= |eqs| && forall i :: 0 <= i < n ==> eqs[i].Writable()
    ensures EqsWords(eqs + [e], n) == EqsWords(eqs, n)
  {
    if n > 0 {
      EqsSnoc(eqs, e, n - 1);
      assert (eqs + [e])[n - 1] == eqs[n - 1];
    }
  }

  lemma {:induction false} MaxAgcSnoc(ms: seq<Maximizer>, agcs: seq<Agc>, m: Maximizer, a: Agc, n: nat)
    requires n <= |ms| && n <= |agcs|
    ensures MaxAgcWords(ms + [m], agcs + [a], n) == MaxAgcWords(ms, agcs, n)
  {
    if n > 0 {
      MaxAgcSnoc(ms, agcs, m, a, n - 1);
      assert (ms + [m])[n - 1] == ms[n - 1];
      assert (agcs + [a])[n - 1] == agcs[n - 1];
    }
  }

  /** The `Settings(byte[])` loop that reads the speaker blocks of both channels. */
  method ReadSpeakers(converter: ByteBuffer) returns (xs: seq<Speaker>)
    requires converter.Reading() && |converter.unread| >= 10
    modifies converter`unread, converter`consumed
    ensures |xs| == NUM_CHANNELS && converter.Reading()
    ensures converter.consumed == old(converter.consumed) + Channels(xs, SpeakerWords, NUM_CHANNELS)
    ensures |converter.unread| == old(|converter.unread|) - 10
  {
    ghost var mark := converter.consumed;
    xs := [];
    for i := 0 to NUM_CHANNELS
      invariant |xs| == i && converter.Reading() && |converter.unread| == old(|converter.unread|) - 5 * i
      invariant converter.consumed == mark + Channels(xs, SpeakerWords, i)
    {
      var x := Speaker.FromBuffer(converter);
      ChannelsSnoc(xs, x, SpeakerWords);
      AppendAssoc(mark, Channels(xs, SpeakerWords, i), SpeakerWords(x));
      xs := xs + [x];
    }
  }

  /** The `Settings(byte[])` loop that reads the auto-gain blocks of both channels. */
  method ReadAutoGains(converter: ByteBuffer) returns (xs: seq<AutoGain>)
    requires converter.Reading() && |converter.unread| >= 20
    modifies converter`unread, converter`consumed
    ensures |xs| == NUM_CHANNELS && converter.Reading()
    ensures converter.consumed == old(converter.consumed) + Channels(xs, AutoGainWords, NUM_CHANNELS)
    ensures |converter.unread| == old(|converter.unread|) - 20
  {
    ghost var mark := converter.consumed;
    xs := [];
    for i := 0 to NUM_CHANNELS
      invariant |xs| == i && converter.Reading() && |converter.unread| == old(|converter.unread|) - 10 * i
      invariant converter.consumed == mark + Channels(xs, AutoGainWords, i)
    {
      var x := AutoGain.FromBuffer(converter);
      ChannelsSnoc(xs, x, AutoGainWords);
      AppendAssoc(mark, Channels(xs, AutoGainWords, i), AutoGainWords(x));
      xs := xs + [x];
    }
  }

  /** The `Settings(byte[])` loop that reads the bass-enhancer blocks of both channels. */
  method ReadBassEnhancers(converter: ByteBuffer) returns (xs: seq<BassEnhancer>)
    requires converter.Reading() && |converter.unread| >= 20
    modifies converter`unread, converter`consumed
    ensures |xs| == NUM_CHANNELS && converter.Reading()
    ensures converter.consumed == old(converter.consumed) + Channels(xs, BassEnhancerWords, NUM_CHANNELS)
    ensures |converter.unread| == old(|converter.unread|) - 20
  {
    ghost var mark := converter.consumed;
    xs := [];
    for i := 0 to NUM_CHANNELS
      invariant |xs| == i && converter.Reading() && |converter.unread| == old(|converter.unread|) - 10 * i
      invariant converter.consumed == mark + Channels(xs, BassEnhancerWords, i)
    {
      var x := BassEnhancer.FromBuffer(converter);
      ChannelsSnoc(xs, x, BassEnhancerWords);
      AppendAssoc(mark, Channels(xs, BassEnhancerWords, i), BassEnhancerWords(x));
      xs := xs + [x];
    }
  }

  /** The `Settings(byte[])` loop that reads the exciter blocks of both channels. */
  method ReadExciters(converter: ByteBuffer) returns (xs: seq<Exciter>)
    requires converter.Reading() && |converter.unread| >= 10
    modifies converter`unread, converter`consumed
    ensures |xs| == NUM_CHANNELS && converter.Reading()
    ensures converter.consumed == old(converter.consumed) + Channels(xs, ExciterWords, NUM_CHANNELS)
    ensures |converter.unread| == old(|converter.unread|) - 10
  {
    ghost var mark := converter.consumed;
    xs := [];
    for i := 0 to NUM_CHANNELS
      invariant |xs| == i && converter.Reading() && |converter.unread| == old(|converter.unread|) - 5 * i
      invariant converter.consumed == mark + Channels(xs, ExciterWords, i)
    {
      var x := Exciter.FromBuffer(converter);
      ChannelsSnoc(xs, x, ExciterWords);
      AppendAssoc(mark, Channels(xs, ExciterWords, i), ExciterWords(x));
      xs := xs + [x];
    }
  }

  /** The `Settings(byte[])` loop that reads the de-esser blocks of both channels. */
  method ReadDeessers(converter: ByteBuffer) returns (xs: seq<Deesser>)
    requires converter.Reading() && |converter.unread| >= 10
    modifies converter`unread, converter`consumed
    ensures |xs| == NUM_CHANNELS && converter.Reading()
    ensures converter.consumed == old(converter.consumed) + Channels(xs, DeesserWords, NUM_CHANNELS)
    ensures |converter.unread| == old(|converter.unread|) - 10
  {
    ghost var mark := converter.consumed;
    xs := [];
    for i := 0 to NUM_CHANNELS
      invariant |xs| == i && converter.Reading() && |converter.unread| == old(|converter.unread|) - 5 * i
      invariant converter.consumed == mark + Channels(xs, DeesserWords, i)
    {
      var x := Deesser.FromBuffer(converter);
      ChannelsSnoc(xs, x, DeesserWords);
      AppendAssoc(mark, Channels(xs, DeesserWords, i), DeesserWords(x));
      xs := xs + [x];
    }
  }

  /** The `Settings(byte[])` loop that reads the multi-band DRC blocks of both channels. */
  method ReadMbdrcs(converter: ByteBuffer) returns (xs: seq<Mbdrc>)
    requires converter.Reading() && |converter.unread| >= 200
    modifies converter`unread, converter`consumed
    ensures |xs| == NUM_CHANNELS && converter.Reading()
    ensures converter.consumed == old(converter.consumed) + Channels(xs, MbdrcWords, NUM_CHANNELS)
    ensures |converter.unread| == old(|converter.unread|) - 200
  {
    ghost var mark := converter.consumed;
    xs := [];
    for i := 0 to NUM_CHANNELS
      invariant |xs| == i && converter.Reading() && |converter.unread| == old(|converter.unread|) - 100 * i
      invariant converter.consumed == mark + Channels(xs, MbdrcWords, i)
    {
      var x := Mbdrc.FromBuffer(converter);
      ChannelsSnoc(xs, x, MbdrcWords);
      AppendAssoc(mark, Channels(xs, MbdrcWords, i), MbdrcWords(x));
      xs := xs + [x];
    }
  }

  /** The `Settings(byte[])` loop that reads the equalizers of both channels. */
  method ReadEqs(converter: ByteBuffer) returns (eqs: seq<Eq>)
    requires converter.Reading() && |converter.unread| >= 100
    modifies converter`unread, converter`consumed
    ensures |eqs| == NUM_CHANNELS && |eqs[0].bands| == NUM_BANDS && |eqs[1].bands| == NUM_BANDS
    ensures converter.Reading() && converter.consumed == old(converter.consumed) + EqsWords(eqs, NUM_CHANNELS)
    ensures |converter.unread| == old(|converter.unread|) - 100
  {
    ghost var mark := converter.consumed;
    eqs := [];
    for i := 0 to NUM_CHANNELS
      invariant |eqs| == i && converter.Reading() && |converter.unread| == old(|converter.unread|) - 50 * i
      invariant forall j :: 0 <= j < i ==> |eqs[j].bands| == NUM_BANDS
      invariant converter.consumed == mark + EqsWords(eqs, i)
    {
      var e := Eq.FromBuffer(converter);
      EqsSnoc(eqs, e, i);
      AppendAssoc(mark, EqsWords(eqs, i), e.Words());
      eqs := eqs + [e];
    }
  }

  /** The `Settings(byte[])` loop that reads each channel's maximizer and then its AGC. */
  method ReadMaxAgcs(converter: ByteBuffer) returns (ms: seq<Maximizer>, agcs: seq<Agc>)
    requires converter.Reading() && |converter.unread| >= 40
    modifies converter`unread, converter`consumed
    ensures |ms| == NUM_CHANNELS && |agcs| == NUM_CHANNELS && converter.Reading()
    ensures converter.consumed == old(converter.consumed) + MaxAgcWords(ms, agcs, NUM_CHANNELS)
    ensures |converter.unread| == old(|converter.unread|) - 40
  {
    ghost var mark := converter.consumed;
    ms, agcs := [], [];
    for i := 0 to NUM_CHANNELS
      invariant |ms| == i && |agcs| == i && converter.Reading()
      invariant |converter.unread| == old(|converter.unread|) - 20 * i
      invariant converter.consumed == mark + MaxAgcWords(ms, agcs, i)
    {
      var m := Maximizer.FromBuffer(converter);
      AppendAssoc(mark, MaxAgcWords(ms, agcs, i), m.Words());
      var a := Agc.FromBuffer(converter);
      AppendAssoc(mark, MaxAgcWords(ms, agcs, i) + m.Words(), a.Words());
      MaxAgcSnoc(ms, agcs, m, a, i);
      ms, agcs := ms + [m], agcs + [a];
    }
  }

  /** The `Settings(byte[])` loops for the speaker, auto-gain and bass blocks, around the third reserved run. */
  method ReadFrontBlocks(converter: ByteBuffer)
      returns (speakers: seq<Speaker>, autoGains: seq<AutoGain>, reserved3: Words10, bassEnhancers: seq<BassEnhancer>)
    requires converter.Reading() && |converter.unread| >= 60
    modifies converter`unread, converter`consumed
    ensures |speakers| == NUM_CHANNELS && |autoGains| == NUM_CHANNELS && |bassEnhancers| == NUM_CHANNELS
    ensures converter.Reading() && |converter.unread| == old(|converter.unread|) - 60
    ensures converter.consumed == old(converter.consumed) + Channels(speakers, SpeakerWords, NUM_CHANNELS)
      + Channels(autoGains, AutoGainWords, NUM_CHANNELS) + reserved3
      + Channels(bassEnhancers, BassEnhancerWords, NUM_CHANNELS)
  {
    speakers := ReadSpeakers(converter);
    autoGains := ReadAutoGains(converter);
    reserved3 := converter.GetFloats(10);
    bassEnhancers := ReadBassEnhancers(converter);
  }

  /** The `Settings(byte[])` loops from the exciters to the final reserved run. */
  method ReadBackBlocks(converter: ByteBuffer)
      returns (exciters: seq<Exciter>, deessers: seq<Deesser>, eqs: seq<Eq>, mbdrcs: seq<Mbdrc>,
               maximizers: seq<Maximizer>, agcs: seq<Agc>, reserved4: Words104)
    requires converter.Reading() && |converter.unread| >= 464
    modifies converter`unread, converter`consumed
    ensures |exciters| == NUM_CHANNELS && |deessers| == NUM_CHANNELS && |mbdrcs| == NUM_CHANNELS
    ensures |maximizers| == NUM_CHANNELS && |agcs| == NUM_CHANNELS
    ensures |eqs| == NUM_CHANNELS && |eqs[0].bands| == NUM_BANDS && |eqs[1].bands| == NUM_BANDS
    ensures converter.Reading() && |converter.unread| == old(|converter.unread|) - 464
    ensures converter.consumed == old(converter.consumed) + Channels(exciters, ExciterWords, NUM_CHANNELS)
      + Channels(deessers, DeesserWords, NUM_CHANNELS) + EqsWords(eqs, NUM_CHANNELS)
      + Channels(mbdrcs, MbdrcWords, NUM_CHANNELS) + MaxAgcWords(maximizers, agcs, NUM_CHANNELS) + reserved4
  {
    exciters := ReadExciters(converter);
    deessers := ReadDeessers(converter);
    eqs := ReadEqs(converter);
    mbdrcs := ReadMbdrcs(converter);
    maximizers, agcs := ReadMaxAgcs(converter);
    reserved4 := converter.GetFloats(104);
  }

  /**
   * All equalizer parameters. The per-channel setters accept collections of any
   * size, so the channel sequences are not fixed at `NUM_CHANNELS`.
   */
  datatype Settings = Settings(
    curPreset: Int32,
    samplingRate: Word, bitRate: Word, link: Word, channels: Word, reserved1: Words6,
    autoGainEnabled: Word, bassEnabled: Word, exciterEnabled: Word, deesserEnabled: Word,
    eq10Enabled: Word, mbdrcEnabled: Word, agcEnabled: Word, maximizerEnabled: Word, reserved2: Words2,
    speakers: seq<Speaker>, autoGains: seq<AutoGain>, reserved3: Words10,
    bassEnhancers: seq<BassEnhancer>, exciters: seq<Exciter>, deessers: seq<Deesser>,
    eqs: seq<Eq>, mbdrcs: seq<Mbdrc>, maximizers: seq<Maximizer>, agcs: seq<Agc>,
    reserved4: Words104)
  {
    /** `toBytes` reads channels 0 and 1 of every block and bands 0 to 9 of both equalizers. */
    predicate Writable() {
      |speakers| >= NUM_CHANNELS && |autoGains| >= NUM_CHANNELS && |bassEnhancers| >= NUM_CHANNELS
      && |exciters| >= NUM_CHANNELS && |deessers| >= NUM_CHANNELS && |mbdrcs| >= NUM_CHANNELS
      && |maximizers| >= NUM_CHANNELS && |agcs| >= NUM_CHANNELS
      && |eqs| >= NUM_CHANNELS && eqs[0].Writable() && eqs[1].Writable()
    }

    /** The shape `Settings(byte[])` produces: exactly two channels and ten bands. */
    predicate Canonical() {
      |speakers| == NUM_CHANNELS && |autoGains| == NUM_CHANNELS && |bassEnhancers| == NUM_CHANNELS
      && |exciters| == NUM_CHANNELS && |deessers| == NUM_CHANNELS && |mbdrcs| == NUM_CHANNELS
      && |maximizers| == NUM_CHANNELS && |agcs| == NUM_CHANNELS
      && |eqs| == NUM_CHANNELS && |eqs[0].bands| == NUM_BANDS && |eqs[1].bands| == NUM_BANDS
    }

    /** What survives serialisation: the first two channels and the first ten bands. */
    function Truncated(): (t: Settings)
      requires Writable()
      ensures t.Canonical()
    {
      this.(speakers := speakers[..NUM_CHANNELS], autoGains := autoGains[..NUM_CHANNELS],
            bassEnhancers := bassEnhancers[..NUM_CHANNELS], exciters := exciters[..NUM_CHANNELS],
            deessers := deessers[..NUM_CHANNELS],
            eqs := [Eq(eqs[0].bands[..NUM_BANDS]), Eq(eqs[1].bands[..NUM_BANDS])],
            mbdrcs := mbdrcs[..NUM_CHANNELS], maximizers := maximizers[..NUM_CHANNELS],
            agcs := agcs[..NUM_CHANNELS])
    }

    /** The preset (as a two's-complement word), the stream format and the enable flags. */
    function Header(): (r: seq<Word>)
      ensures |r| == 21
    {
      [IntWord(curPreset), samplingRate, bitRate, link, channels] + reserved1
      + [autoGainEnabled, bassEnabled, exciterEnabled, deesserEnabled, eq10Enabled, mbdrcEnabled, agcEnabled,
         maximizerEnabled]
      + reserved2
    }

    /** The words `toBytes` writes before the equalizers. */
    function Front(): seq<Word>
      requires Writable()
    {
      Header()
      + Channels(speakers, SpeakerWords, NUM_CHANNELS) + Channels(autoGains, AutoGainWords, NUM_CHANNELS)
      + reserved3
      + Channels(bassEnhancers, BassEnhancerWords, NUM_CHANNELS)
      + Channels(exciters, ExciterWords, NUM_CHANNELS)
      + Channels(deessers, DeesserWords, NUM_CHANNELS)
    }

    /** The serialised word order of `toBytes`: 4 bytes of preset and 2176 bytes of profile. */
    function Words(): seq<Word>
      requires Writable()
    {
      Front()
      + EqsWords(eqs, NUM_CHANNELS)
      + Channels(mbdrcs, MbdrcWords, NUM_CHANNELS)
      + MaxAgcWords(maximizers, agcs, NUM_CHANNELS)
      + reserved4
    }

    /** `toBytes`; `None` where indexing a missing channel or band throws. */
    method ToBytes() returns (bytes: Option<seq<Byte>>)
      ensures bytes.Some? <==> Writable()
      ensures bytes.Some? ==> bytes.value == WordsBytes(Words()) && |bytes.value| == SETTINGS_SIZE
    {
      if !Writable() {
        return None;
      }
      SettingsSize(this);
      var converter := new ByteBuffer.Allocate(SETTINGS_SIZE);
      PutHeader(converter);
      assert converter.written == Header();
      PutSpeakers(converter, speakers);
      PutAutoGains(converter, autoGains);
      converter.PutFloats(reserved3);
      PutBassEnhancers(converter, bassEnhancers);
      PutExciters(converter, exciters);
      PutDeessers(converter, deessers);
      PutEqs(converter, eqs);
      PutMbdrcs(converter, mbdrcs);
      PutMaxAgcs(converter, maximizers, agcs);
      converter.PutFloats(reserved4);
      bytes := Some(converter.Array());
    }

    /**
     * `Settings(byte[])`: the words of the first 2180 bytes, read in `toBytes`
     * order; a shorter array makes a read throw `BufferUnderflowException`.
     */
    static method FromBytes(bytes: seq<Byte>) returns (r: Option<Settings>)
      ensures r.None? <==> |bytes| < SETTINGS_SIZE
      ensures r.Some? ==> r.value.Canonical() && r.value.Words() == WordsOf(bytes)[..545]
    {
      if |bytes| < SETTINGS_SIZE {
        return None;
      }
      var converter := new ByteBuffer.Wrap(bytes);
      var s := ReadSettings(converter);
      r := Some(s);
    }

    /** The reads of `Settings(byte[])` from a fresh buffer holding at least 545 words. */
    static method ReadSettings(converter: ByteBuffer) returns (s: Settings)
      requires converter.Reading() && converter.consumed == [] && |converter.unread| >= 545
      modifies converter`unread, converter`consumed
      ensures s.Canonical() && converter.Reading() && |converter.unread| == old(|converter.unread|) - 545
      ensures converter.consumed == s.Words()
    {
      var h := ReadHeader(converter);
      var speakers, autoGains, reserved3, bassEnhancers := ReadFrontBlocks(converter);
      var exciters, deessers, eqs, mbdrcs, maximizers, agcs, reserved4 := ReadBackBlocks(converter);
      s := h.(speakers := speakers, autoGains := autoGains, reserved3 := reserved3, bassEnhancers := bassEnhancers,
              exciters := exciters, deessers := deessers, eqs := eqs, mbdrcs := mbdrcs, maximizers := maximizers,
              agcs := agcs, reserved4 := reserved4);
    }

    /**
     * The header reads of `Settings(byte[])`, into settings whose channel
     * arrays are still empty and whose later reserved runs are still zero.
     */
    static method ReadHeader(converter: ByteBuffer) returns (h: Settings)
      requires converter.Reading() && converter.consumed == [] && |converter.unread| >= 21
      modifies converter`unread, converter`consumed
      ensures converter.Reading() && |converter.unread| == old(|converter.unread|) - 21
      ensures converter.consumed == h.Header()
    {
      var curPreset := converter.GetInt();
      var format := converter.GetFloats(4);
      var reserved1 := converter.GetFloats(6);
      var enabled := converter.GetFloats(8);
      var reserved2 := converter.GetFloats(2);
      h := Settings(curPreset, format[0], format[1], format[2], format[3], reserved1,
                    enabled[0], enabled[1], enabled[2], enabled[3], enabled[4], enabled[5], enabled[6], enabled[7],
                    reserved2, [], [], seq(10, i => 0), [], [], [], [], [], [], [], seq(104, i => 0));
      assert converter.consumed == h.Header();
    }

    /** The start of `toBytes`: the preset, the stream format and the enable flags. */
    method PutHeader(converter: ByteBuffer)
      requires 4 * (|converter.written| + 21) <= converter.capacity
      modifies converter`written
      ensures converter.written == old(converter.written) + Header()
      ensures |converter.written| == old(|converter.written|) + 21
    {
      converter.PutInt(curPreset);
      converter.PutFloats([samplingRate, bitRate, link, channels]);
      converter.PutFloats(reserved1);
      converter.PutFloats([autoGainEnabled, bassEnabled, exciterEnabled, deesserEnabled, eq10Enabled, mbdrcEnabled,
                           agcEnabled, maximizerEnabled]);
      converter.PutFloats(reserved2);
      assert converter.written == old(converter.written) + Header();
    }
  }

  lemma SettingsSize(s: Settings)
    requires s.Writable()
    ensures |s.Words()| == 545
  {
    ChannelsLength(s.speakers, SpeakerWords, 5, NUM_CHANNELS);
    ChannelsLength(s.autoGains, AutoGainWords, 10, NUM_CHANNELS);
    ChannelsLength(s.bassEnhancers, BassEnhancerWords, 10, NUM_CHANNELS);
    ChannelsLength(s.exciters, ExciterWords, 5, NUM_CHANNELS);
    ChannelsLength(s.deessers, DeesserWords, 5, NUM_CHANNELS);
    ChannelsLength(s.mbdrcs, MbdrcWords, 100, NUM_CHANNELS);
  }

  lemma SpeakerWordsInjective()
    ensures forall x, y :: SpeakerWords(x) == SpeakerWords(y) ==> x == y
  {
    forall x, y | SpeakerWords(x) == SpeakerWords(y) { SpeakerInjective(x, y); }
  }

  lemma AutoGainWordsInjective()
    ensures forall x, y :: AutoGainWords(x) == AutoGainWords(y) ==> x == y
  {
    forall x, y | AutoGainWords(x) == AutoGainWords(y) { AutoGainInjective(x, y); }
  }

  lemma BassEnhancerWordsInjective()
    ensures forall x, y :: BassEnhancerWords(x) == BassEnhancerWords(y) ==> x == y
  {
    forall x, y | BassEnhancerWords(x) == BassEnhancerWords(y) { BassEnhancerInjective(x, y); }
  }

  lemma ExciterWordsInjective()
    ensures forall x, y :: ExciterWords(x) == ExciterWords(y) ==> x == y
  {
    forall x, y | ExciterWords(x) == ExciterWords(y) { ExciterInjective(x, y); }
  }

  lemma DeesserWordsInjective()
    ensures forall x, y :: DeesserWords(x) == DeesserWords(y) ==> x == y
  {
    forall x, y | DeesserWords(x) == DeesserWords(y) { DeesserInjective(x, y); }
  }

  lemma MbdrcWordsInjective()
    ensures forall x, y :: MbdrcWords(x) == MbdrcWords(y) ==> x == y
  {
    forall x, y | MbdrcWords(x) == MbdrcWords(y) { MbdrcInjective(x, y); }
  }

  /** Two channels' worth of blocks determine the blocks. */
  lemma ChannelPairInjective<T>(xs: seq<T>, ys: seq<T>, f: T -> seq<Word>, size: nat)
    requires |xs| == NUM_CHANNELS && |ys| == NUM_CHANNELS
    requires forall x :: |f(x)| == size
    requires forall x, y :: f(x) == f(y) ==> x == y
    requires Channels(xs, f, NUM_CHANNELS) == Channels(ys, f, NUM_CHANNELS)
    ensures xs == ys
  {
    ChannelsInjective(xs, ys, f, size, NUM_CHANNELS);
    assert xs == xs[..NUM_CHANNELS] && ys == ys[..NUM_CHANNELS];
  }

  lemma EqPairInjective(a: seq<Eq>, b: seq<Eq>)
    requires |a| == NUM_CHANNELS && |b| == NUM_CHANNELS
    requires forall i :: 0 <= i < NUM_CHANNELS ==> |a[i].bands| == NUM_BANDS && |b[i].bands| == NUM_BANDS
    requires EqsWords(a, NUM_CHANNELS) == EqsWords(b, NUM_CHANNELS)
    ensures a == b
  {
    EqsWordsPair(a);
    EqsWordsPair(b);
    ConcatInjective(a[0].Words(), a[1].Words(), b[0].Words(), b[1].Words());
    EqInjective(a[0], b[0]);
    EqInjective(a[1], b[1]);
    PairEqual(a, b);
  }

  /** The two equalizer blocks, channel 0 first. */
  lemma EqsWordsPair(a: seq<Eq>)
    requires |a| == NUM_CHANNELS && a[0].Writable() && a[1].Writable()
    ensures EqsWords(a, NUM_CHANNELS) == a[0].Words() + a[1].Words()
  {
    assert EqsWords(a, 1) == [] + a[0].Words();
  }

  /** Two-element sequences with equal elements are equal. */
  lemma PairEqual<T>(a: seq<T>, b: seq<T>)
    requires |a| == 2 && |b| == 2 && a[0] == b[0] && a[1] == b[1]
    ensures a == b
  {
  }

  lemma MaxAgcPairInjective(ma: seq<Maximizer>, aa: seq<Agc>, mb: seq<Maximizer>, ab: seq<Agc>)
    requires |ma| == NUM_CHANNELS && |aa| == NUM_CHANNELS && |mb| == NUM_CHANNELS && |ab| == NUM_CHANNELS
    requires MaxAgcWords(ma, aa, NUM_CHANNELS) == MaxAgcWords(mb, ab, NUM_CHANNELS)
    ensures ma == mb && aa == ab
  {
    ghost var p0 := MaxAgcWords(ma, aa, 0);
    ghost var q0 := MaxAgcWords(mb, ab, 0);
    ConcatInjective(MaxAgcWords(ma, aa, 1) + ma[1].Words(), aa[1].Words(),
                    MaxAgcWords(mb, ab, 1) + mb[1].Words(), ab[1].Words());
    ConcatInjective(MaxAgcWords(ma, aa, 1), ma[1].Words(), MaxAgcWords(mb, ab, 1), mb[1].Words());
    ConcatInjective(p0 + ma[0].Words(), aa[0].Words(), q0 + mb[0].Words(), ab[0].Words());
    ConcatInjective(p0, ma[0].Words(), q0, mb[0].Words());
    MaximizerInjective(ma[0], mb[0]);
    MaximizerInjective(ma[1], mb[1]);
    AgcInjective(aa[0], ab[0]);
    AgcInjective(aa[1], ab[1]);
    assert ma == [ma[0], ma[1]] && mb == [mb[0], mb[1]];
    assert aa == [aa[0], aa[1]] && ab == [ab[0], ab[1]];
  }

  /** The header words determine the preset, the stream format and the enable flags. */
  lemma HeaderInjective(a: Settings, b: Settings)
    requires a.Header() == b.Header()
    ensures a.curPreset == b.curPreset && a.samplingRate == b.samplingRate && a.bitRate == b.bitRate
    ensures a.link == b.link && a.channels == b.channels && a.reserved1 == b.reserved1
    ensures a.autoGainEnabled == b.autoGainEnabled && a.bassEnabled == b.bassEnabled
    ensures a.exciterEnabled == b.exciterEnabled && a.deesserEnabled == b.deesserEnabled
    ensures a.eq10Enabled == b.eq10Enabled && a.mbdrcEnabled == b.mbdrcEnabled
    ensures a.agcEnabled == b.agcEnabled && a.maximizerEnabled == b.maximizerEnabled
    ensures a.reserved2 == b.reserved2
  {
    ghost var fa := [IntWord(a.curPreset), a.samplingRate, a.bitRate, a.link, a.channels];
    ghost var fb := [IntWord(b.curPreset), b.samplingRate, b.bitRate, b.link, b.channels];
    ghost var ea := [a.autoGainEnabled, a.bassEnabled, a.exciterEnabled, a.deesserEnabled, a.eq10Enabled,
                     a.mbdrcEnabled, a.agcEnabled, a.maximizerEnabled];
    ghost var eb := [b.autoGainEnabled, b.bassEnabled, b.exciterEnabled, b.deesserEnabled, b.eq10Enabled,
                     b.mbdrcEnabled, b.agcEnabled, b.maximizerEnabled];
    ConcatInjective(fa + a.reserved1 + ea, a.reserved2, fb + b.reserved1 + eb, b.reserved2);
    ConcatInjective(fa + a.reserved1, ea, fb + b.reserved1, eb);
    ConcatInjective(fa, a.reserved1, fb, b.reserved1);
    assert fa[0] == fb[0] && ea[0] == eb[0];
    IntWordRoundTrip(a.curPreset);
    IntWordRoundTrip(b.curPreset);
  }

  /** Equal serialisations of canonical settings agree on the words before the equalizers and on each later section. */
  lemma SettingsWordsParts(a: Settings, b: Settings)
    requires a.Canonical() && b.Canonical() && a.Words() == b.Words()
    ensures a.Front() == b.Front()
    ensures EqsWords(a.eqs, NUM_CHANNELS) == EqsWords(b.eqs, NUM_CHANNELS)
    ensures Channels(a.mbdrcs, MbdrcWords, NUM_CHANNELS) == Channels(b.mbdrcs, MbdrcWords, NUM_CHANNELS)
    ensures MaxAgcWords(a.maximizers, a.agcs, NUM_CHANNELS) == MaxAgcWords(b.maximizers, b.agcs, NUM_CHANNELS)
    ensures a.reserved4 == b.reserved4
  {
    FrontSize(a);
    FrontSize(b);
    ChannelsLength(a.mbdrcs, MbdrcWords, 100, NUM_CHANNELS);
    ChannelsLength(b.mbdrcs, MbdrcWords, 100, NUM_CHANNELS);
    ghost var a6 := a.Front() + EqsWords(a.eqs, NUM_CHANNELS);
    ghost var b6 := b.Front() + EqsWords(b.eqs, NUM_CHANNELS);
    ghost var a7 := a6 + Channels(a.mbdrcs, MbdrcWords, NUM_CHANNELS);
    ghost var b7 := b6 + Channels(b.mbdrcs, MbdrcWords, NUM_CHANNELS);
    ghost var a8 := a7 + MaxAgcWords(a.maximizers, a.agcs, NUM_CHANNELS);
    ghost var b8 := b7 + MaxAgcWords(b.maximizers, b.agcs, NUM_CHANNELS);
    ConcatInjective(a8, a.reserved4, b8, b.reserved4);
    ConcatInjective(a7, MaxAgcWords(a.maximizers, a.agcs, NUM_CHANNELS), b7, MaxAgcWords(b.maximizers, b.agcs, NUM_CHANNELS));
    ConcatInjective(a6, Channels(a.mbdrcs, MbdrcWords, NUM_CHANNELS), b6, Channels(b.mbdrcs, MbdrcWords, NUM_CHANNELS));
    ConcatInjective(a.Front(), EqsWords(a.eqs, NUM_CHANNELS), b.Front(), EqsWords(b.eqs, NUM_CHANNELS));
  }

  lemma FrontSize(s: Settings)
    requires s.Writable()
    ensures |s.Front()| == 101
  {
    ChannelsLength(s.speakers, SpeakerWords, 5, NUM_CHANNELS);
    ChannelsLength(s.autoGains, AutoGainWords, 10, NUM_CHANNELS);
    ChannelsLength(s.bassEnhancers, BassEnhancerWords, 10, NUM_CHANNELS);
    ChannelsLength(s.exciters, ExciterWords, 5, NUM_CHANNELS);
    ChannelsLength(s.deessers, DeesserWords, 5, NUM_CHANNELS);
  }

  /** Equal front sections agree on the header and on each channel run before the equalizers. */
  lemma FrontParts(a: Settings, b: Settings)
    requires a.Canonical() && b.Canonical() && a.Front() == b.Front()
    ensures a.Header() == b.Header()
    ensures Channels(a.speakers, SpeakerWords, NUM_CHANNELS) == Channels(b.speakers, SpeakerWords, NUM_CHANNELS)
    ensures Channels(a.autoGains, AutoGainWords, NUM_CHANNELS) == Channels(b.autoGains, AutoGainWords, NUM_CHANNELS)
    ensures a.reserved3 == b.reserved3
    ensures Channels(a.bassEnhancers, BassEnhancerWords, NUM_CHANNELS)
         == Channels(b.bassEnhancers, BassEnhancerWords, NUM_CHANNELS)
    ensures Channels(a.exciters, ExciterWords, NUM_CHANNELS) == Channels(b.exciters, ExciterWords, NUM_CHANNELS)
    ensures Channels(a.deessers, DeesserWords, NUM_CHANNELS) == Channels(b.deessers, DeesserWords, NUM_CHANNELS)
  {
    ChannelsLength(a.speakers, SpeakerWords, 5, NUM_CHANNELS);
    ChannelsLength(a.autoGains, AutoGainWords, 10, NUM_CHANNELS);
    ChannelsLength(a.bassEnhancers, BassEnhancerWords, 10, NUM_CHANNELS);
    ChannelsLength(a.exciters, ExciterWords, 5, NUM_CHANNELS);
    ChannelsLength(b.speakers, SpeakerWords, 5, NUM_CHANNELS);
    ChannelsLength(b.autoGains, AutoGainWords, 10, NUM_CHANNELS);
    ChannelsLength(b.bassEnhancers, BassEnhancerWords, 10, NUM_CHANNELS);
    ChannelsLength(b.exciters, ExciterWords, 5, NUM_CHANNELS);
    ghost var a1 := a.Header() + Channels(a.speakers, SpeakerWords, NUM_CHANNELS);
    ghost var b1 := b.Header() + Channels(b.speakers, SpeakerWords, NUM_CHANNELS);
    ghost var a2 := a1 + Channels(a.autoGains, AutoGainWords, NUM_CHANNELS) + a.reserved3;
    ghost var b2 := b1 + Channels(b.autoGains, AutoGainWords, NUM_CHANNELS) + b.reserved3;
    ghost var a3 := a2 + Channels(a.bassEnhancers, BassEnhancerWords, NUM_CHANNELS);
    ghost var b3 := b2 + Channels(b.bassEnhancers, BassEnhancerWords, NUM_CHANNELS);
    ghost var a4 := a3 + Channels(a.exciters, ExciterWords, NUM_CHANNELS);
    ghost var b4 := b3 + Channels(b.exciters, ExciterWords, NUM_CHANNELS);
    ConcatInjective(a4, Channels(a.deessers, DeesserWords, NUM_CHANNELS), b4, Channels(b.deessers, DeesserWords, NUM_CHANNELS));
    ConcatInjective(a3, Channels(a.exciters, ExciterWords, NUM_CHANNELS), b3, Channels(b.exciters, ExciterWords, NUM_CHANNELS));
    ConcatInjective(a2, Channels(a.bassEnhancers, BassEnhancerWords, NUM_CHANNELS),
                    b2, Channels(b.bassEnhancers, BassEnhancerWords, NUM_CHANNELS));
    ConcatInjective(a1 + Channels(a.autoGains, AutoGainWords, NUM_CHANNELS), a.reserved3,
                    b1 + Channels(b.autoGains, AutoGainWords, NUM_CHANNELS), b.reserved3);
    ConcatInjective(a1, Channels(a.autoGains, AutoGainWords, NUM_CHANNELS), b1, Channels(b.autoGains, AutoGainWords, NUM_CHANNELS));
    ConcatInjective(a.Header(), Channels(a.speakers, SpeakerWords, NUM_CHANNELS),
                    b.Header(), Channels(b.speakers, SpeakerWords, NUM_CHANNELS));
  }

  /** The front section determines the header and the channel runs before the equalizers. */
  lemma FrontInjective(a: Settings, b: Settings)
    requires a.Canonical() && b.Canonical() && a.Front() == b.Front()
    ensures a.Header() == b.Header() && a.reserved3 == b.reserved3
    ensures a.speakers == b.speakers && a.autoGains == b.autoGains && a.bassEnhancers == b.bassEnhancers
    ensures a.exciters == b.exciters && a.deessers == b.deessers
  {
    FrontParts(a, b);
    SpeakerWordsInjective();
    ChannelPairInjective(a.speakers, b.speakers, SpeakerWords, 5);
    AutoGainWordsInjective();
    ChannelPairInjective(a.autoGains, b.autoGains, AutoGainWords, 10);
    BassEnhancerWordsInjective();
    ChannelPairInjective(a.bassEnhancers, b.bassEnhancers, BassEnhancerWords, 10);
    ExciterWordsInjective();
    ChannelPairInjective(a.exciters, b.exciters, ExciterWords, 5);
    DeesserWordsInjective();
    ChannelPairInjective(a.deessers, b.deessers, DeesserWords, 5);
  }

  /** Distinct canonical settings serialise to distinct words. */
  lemma SettingsInjective(a: Settings, b: Settings)
    requires a.Canonical() && b.Canonical() && a.Words() == b.Words()
    ensures a == b
  {
    SettingsWordsParts(a, b);
    FrontInjective(a, b);
    HeaderInjective(a, b);
    MbdrcWordsInjective();
    ChannelPairInjective(a.mbdrcs, b.mbdrcs, MbdrcWords, 100);
    EqPairInjective(a.eqs, b.eqs);
    MaxAgcPairInjective(a.maximizers, a.agcs, b.maximizers, b.agcs);
  }


  /** Canonicalising loses nothing that `toBytes` writes. */
  lemma TruncatedWords(s: Settings)
    requires s.Writable()
    ensures s.Truncated().Words() == s.Words()
  {
    var t := s.Truncated();
    TruncatedFront(s);
    TruncatedBack(s);
    ChannelsAgree(t.mbdrcs, s.mbdrcs, MbdrcWords, NUM_CHANNELS);
  }

  lemma TruncatedBack(s: Settings)
    requires s.Writable()
    ensures EqsWords(s.Truncated().eqs, NUM_CHANNELS) == EqsWords(s.eqs, NUM_CHANNELS)
    ensures MaxAgcWords(s.Truncated().maximizers, s.Truncated().agcs, NUM_CHANNELS)
         == MaxAgcWords(s.maximizers, s.agcs, NUM_CHANNELS)
  {
    var t := s.Truncated();
    assert s.eqs[0].bands[..NUM_BANDS][..NUM_BANDS] == s.eqs[0].bands[..NUM_BANDS];
    assert s.eqs[1].bands[..NUM_BANDS][..NUM_BANDS] == s.eqs[1].bands[..NUM_BANDS];
    assert EqsWords(t.eqs, 1) == EqsWords(s.eqs, 1);
    assert MaxAgcWords(t.maximizers, t.agcs, 1) == MaxAgcWords(s.maximizers, s.agcs, 1);
  }

  lemma TruncatedFront(s: Settings)
    requires s.Writable()
    ensures s.Truncated().Front() == s.Front()
  {
    var t := s.Truncated();
    ChannelsAgree(t.speakers, s.speakers, SpeakerWords, NUM_CHANNELS);
    ChannelsAgree(t.autoGains, s.autoGains, AutoGainWords, NUM_CHANNELS);
    ChannelsAgree(t.bassEnhancers, s.bassEnhancers, BassEnhancerWords, NUM_CHANNELS);
    ChannelsAgree(t.exciters, s.exciters, ExciterWords, NUM_CHANNELS);
    ChannelsAgree(t.deessers, s.deessers, DeesserWords, NUM_CHANNELS);
  }

  /**
   * Reading back what `toBytes` wrote gives the settings cut to two channels
   * and ten bands: the result of `Settings(byte[])` on the bytes of
   * `toBytes` is `s.Truncated()`.
   */
  lemma SettingsRoundTrip(s: Settings, bytes: seq<Byte>, t: Settings)
    requires s.Writable() && bytes == WordsBytes(s.Words()) && |bytes| == SETTINGS_SIZE
    requires t.Canonical() && t.Words() == WordsOf(bytes)[..545]
    ensures t == s.Truncated()
  {
    WordsRoundTrip(s.Words());
    SettingsSize(s);
    assert s.Words()[..545] == s.Words();
    TruncatedWords(s);
    SettingsInjective(t, s.Truncated());
  }

  lemma WordsOfPrefix(bs: seq<Byte>, n: nat)
    requires 4 * n <= |bs|
    ensures WordsOf(bs)[..n] == WordsOf(bs[..4 * n])
  {
    forall k | 0 <= k < n
      ensures WordsOf(bs)[..n][k] == WordsOf(bs[..4 * n])[k]
    {
      assert bs[..4 * n][4 * k..4 * k + 4] == bs[4 * k..4 * k + 4];
    }
  }

  /**
   * Writing back what `Settings(byte[])` read reproduces the first 2180 bytes
   * of the array it was given.
   */
  lemma BytesSettingsRoundTrip(bytes: seq<Byte>, t: Settings)
    requires |bytes| >= SETTINGS_SIZE && t.Canonical()
    requires t.Words() == WordsOf(bytes)[..545]
    ensures WordsBytes(t.Words()) == bytes[..SETTINGS_SIZE]
  {
    WordsOfPrefix(bytes, 545);
    BytesRoundTrip(bytes[..SETTINGS_SIZE]);
  }

  /**
   * Where the sections after the multi-band DRCs sit: each channel's
   * maximizer is followed by its AGC, from word 401 (byte 1604) on, and the
   * last 104 words (from byte 1764) are the final reserved run.
   */
  lemma SettingsLayout(s: Settings)
    requires s.Writable()
    ensures |s.Words()| == 545 && s.Words()[0] == IntWord(s.curPreset)
    ensures s.Words()[401..404] == s.maximizers[0].Words()
    ensures s.Words()[404..421] == s.agcs[0].Words()
    ensures s.Words()[421..424] == s.maximizers[1].Words()
    ensures s.Words()[424..441] == s.agcs[1].Words()
    ensures s.Words()[441..] == s.reserved4
  {
    FrontSize(s);
    ChannelsLength(s.mbdrcs, MbdrcWords, 100, NUM_CHANNELS);
    var p := s.Front() + EqsWords(s.eqs, NUM_CHANNELS) + Channels(s.mbdrcs, MbdrcWords, NUM_CHANNELS);
    var m0, a0 := s.maximizers[0].Words(), s.agcs[0].Words();
    var m1, a1 := s.maximizers[1].Words(), s.agcs[1].Words();
    MaxAgcWordsPair(s.maximizers, s.agcs);
    assert s.Words() == p + (m0 + a0 + m1 + a1) + s.reserved4;
    Slices(p, m0, a0, m1, a1, s.reserved4);
    assert s.Words()[0] == s.Front()[0] == s.Header()[0];
  }

  /** The maximizer and AGC words of both channels, in writing order. */
  lemma MaxAgcWordsPair(ms: seq<Maximizer>, agcs: seq<Agc>)
    requires NUM_CHANNELS <= |ms| && NUM_CHANNELS <= |agcs|
    ensures MaxAgcWords(ms, agcs, NUM_CHANNELS) == ms[0].Words() + agcs[0].Words() + ms[1].Words() + agcs[1].Words()
  {
    var m0, a0, m1, a1 := ms[0].Words(), agcs[0].Words(), ms[1].Words(), agcs[1].Words();
    assert MaxAgcWords(ms, agcs, 1) == [] + m0 + a0;
    assert [] + m0 + a0 == m0 + a0;
    assert MaxAgcWords(ms, agcs, 2) == MaxAgcWords(ms, agcs, 1) + m1 + a1;
  }

  /** Where each piece of a concatenation sits. */
  lemma Slices<T>(p: seq<T>, u: seq<T>, v: seq<T>, w: seq<T>, x: seq<T>, y: seq<T>)
    ensures var z, i := p + (u + v + w + x) + y, |p|;
      && z[i..i + |u|] == u
      && z[i + |u|..i + |u| + |v|] == v
      && z[i + |u| + |v|..i + |u| + |v| + |w|] == w
      && z[i + |u| + |v| + |w|..i + |u| + |v| + |w| + |x|] == x
      && z[i + |u| + |v| + |w| + |x|..] == y
  {
    var q := u + v + w + x;
    var z := p + q + y;
    assert z[|p|..|p| + |q|] == q;
    assert z[|p| + |q|..] == y;
    assert q[..|u|] == u;
    assert q[|u|..|u| + |v|] == v;
    assert q[|u| + |v|..|u| + |v| + |w|] == w;
    assert q[|u| + |v| + |w|..] == x;
  }

  // ------------------------------------------------------------ block round trips

  /** A speaker block read back from the bytes its `toBytes` wrote is the same block. */
  lemma SpeakerRoundTrip(s: Speaker, t: Speaker)
    requires t.Words() == WordsOf(WordsBytes(s.Words()))
    ensures t == s
  {
    WordsRoundTrip(s.Words());
    SpeakerInjective(t, s);
  }

  lemma AutoGainRoundTrip(s: AutoGain, t: AutoGain)
    requires t.Words() == WordsOf(WordsBytes(s.Words()))
    ensures t == s
  {
    WordsRoundTrip(s.Words());
    AutoGainInjective(t, s);
  }

  lemma BassEnhancerRoundTrip(s: BassEnhancer, t: BassEnhancer)
    requires t.Words() == WordsOf(WordsBytes(s.Words()))
    ensures t == s
  {
    WordsRoundTrip(s.Words());
    BassEnhancerInjective(t, s);
  }

  lemma ExciterRoundTrip(s: Exciter, t: Exciter)
    requires t.Words() == WordsOf(WordsBytes(s.Words()))
    ensures t == s
  {
    WordsRoundTrip(s.Words());
    ExciterInjective(t, s);
  }

  lemma DeesserRoundTrip(s: Deesser, t: Deesser)
    requires t.Words() == WordsOf(WordsBytes(s.Words()))
    ensures t == s
  {
    WordsRoundTrip(s.Words());
    DeesserInjective(t, s);
  }

  lemma EqBandRoundTrip(s: EqBand, t: EqBand)
    requires t.Words() == WordsOf(WordsBytes(s.Words()))
    ensures t == s
  {
    WordsRoundTrip(s.Words());
    EqBandInjective(t, s);
  }

  /** An equalizer read back from its bytes holds the first ten bands of the one written. */
  lemma EqRoundTrip(s: Eq, t: Eq)
    requires s.Writable() && |t.bands| == NUM_BANDS
    requires t.Words() == WordsOf(WordsBytes(s.Words()))
    ensures t == Eq(s.bands[..NUM_BANDS])
  {
    WordsRoundTrip(s.Words());
    assert s.bands[..NUM_BANDS][..NUM_BANDS] == s.bands[..NUM_BANDS];
    EqInjective(t, Eq(s.bands[..NUM_BANDS]));
  }

  lemma MbdrcFreqRoundTrip(s: MbdrcFreq, t: MbdrcFreq)
    requires t.Words() == WordsOf(WordsBytes(s.Words()))
    ensures t == s
  {
    WordsRoundTrip(s.Words());
    MbdrcFreqInjective(t, s);
  }

  lemma MbdrcRoundTrip(s: Mbdrc, t: Mbdrc)
    requires t.Words() == WordsOf(WordsBytes(s.Words()))
    ensures t == s
  {
    WordsRoundTrip(s.Words());
    MbdrcInjective(t, s);
  }

  lemma MaximizerRoundTrip(s: Maximizer, t: Maximizer)
    requires t.Words() == WordsOf(WordsBytes(s.Words()))
    ensures t == s
  {
    WordsRoundTrip(s.Words());
    MaximizerInjective(t, s);
  }

  lemma AgcRoundTrip(s: Agc, t: Agc)
    requires t.Words() == WordsOf(WordsBytes(s.Words()))
    ensures t == s
  {
    WordsRoundTrip(s.Words());
    AgcInjective(t, s);
  }

  // ------------------------------------------------------------ preset names and parameter events

  /** The 32-byte `value` array a preset-name query fills. */
  type NameBuffer = s: seq<Byte> | |s| == PARAM_STRING_SIZE_MAX witness seq(PARAM_STRING_SIZE_MAX, i => 0)

  predicate HasNul(value: seq<Byte>) {
    exists j :: 0 <= j < |value| && value[j] == 0
  }

  /** The index of the first NUL byte. */
  function FirstNul(value: seq<Byte>): (n: nat)
    requires HasNul(value)
    ensures n < |value| && value[n] == 0 && forall j :: 0 <= j < n ==> value[j] != 0
  {
    if value[0] == 0 then 0
    else
      assert HasNul(value[1..]) by {
        var j :| 0 <= j < |value| && value[j] == 0;
        assert value[1..][j - 1] == 0;
      }
      1 + FirstNul(value[1..])
  }

  /** `new String(bytes, "ISO-8859-1")`: each byte is the character with that code. */
  function Latin1(bytes: seq<Byte>): (s: string)
    ensures |s| == |bytes| && forall i :: 0 <= i < |s| ==> s[i] as int == bytes[i]
  {
    seq(|bytes|, i requires 0 <= i < |bytes| => bytes[i] as char)
  }

  /** The name a preset-name reply stands for: its bytes up to the first NUL, as Latin-1. */
  function PresetName(value: seq<Byte>): string
    requires HasNul(value)
  {
    Latin1(value[..FirstNul(value)])
  }

  /**
   * The constructor's scan `while (value[length] != 0) length++`; `None` where
   * no NUL stops it and `value[32]` throws `ArrayIndexOutOfBoundsException`.
   */
  method NameLength(value: NameBuffer) returns (length: Option<nat>)
    ensures length.Some? <==> HasNul(value)
    ensures length.Some? ==> length.value < |value| && value[length.value] == 0
    ensures length.Some? ==> forall j :: 0 <= j < length.value ==> value[j] != 0
  {
    var n := 0;
    while n < |value| && value[n] != 0
      invariant 0 <= n <= |value| && forall j :: 0 <= j < n ==> value[j] != 0
    {
      n := n + 1;
    }
    if n == |value| {
      return None;
    }
    return Some(n);
  }

  /** `byteArrayToInt` in native (little-endian) order. */
  function BytesToInt(b: seq<Byte>): (v: int)
    requires |b| >= 4
    ensures IsInt32(v)
  {
    Wrap32(WordOf(b))
  }

  /** `byteArrayToShort` in native (little-endian) order, sign-extended to `int`. */
  function BytesToShort(b: seq<Byte>): (v: int)
    requires |b| >= 2
    ensures -0x8000 <= v < 0x8000
  {
    var raw := b[0] as int + 256 * (b[1] as int);
    if raw >= 0x8000 then raw - 0x1_0000 else raw
  }

  /** The event a `RockchipEqualizer.OnParameterChangeListener` receives. */
  datatype ParameterChange = ParameterChange(status: int, param1: int, param2: int, value: int)

  /**
   * The decoding in `BaseParameterListener.onParameterChange`: the first
   * parameter from bytes 0..3, the second from bytes 4..7, the value from a
   * 2- or 4-byte blob, each -1 when absent; the event is passed on only when
   * both the first parameter and the value are not -1.
   */
  function DecodeParameterChange(status: int, param: seq<Byte>, value: seq<Byte>): (r: Option<ParameterChange>)
    ensures r.Some? ==> |param| >= 4 && (|value| == 2 || |value| == 4)
    ensures r.Some? ==> r.value.status == status && r.value.param1 == BytesToInt(param)
    ensures r.Some? ==> r.value.param1 != -1 && r.value.value != -1
    ensures r.Some? ==> r.value.param2 == (if |param| >= 8 then BytesToInt(param[4..]) else -1)
    ensures r.Some? ==> r.value.value == (if |value| == 2 then BytesToShort(value) else BytesToInt(value))
  {
    var p1 := if |param| >= 4 then BytesToInt(param) else -1;
    var p2 := if |param| >= 8 then BytesToInt(param[4..]) else -1;
    var v := if |value| == 2 then BytesToShort(value) else if |value| == 4 then BytesToInt(value) else -1;
    if p1 != -1 && v != -1 then Some(ParameterChange(status, p1, p2, v)) else None
  }

  /** The native little-endian bytes of an `int`. */
  function IntBytes(v: int): (r: seq<Byte>)
    requires IsInt32(v)
    ensures |r| == 4
  {
    WordBytes(IntWord(v))
  }

  /** The native little-endian bytes of a `short`. */
  function ShortBytes(v: int): (r: seq<Byte>)
    requires -0x8000 <= v < 0x8000
    ensures |r| == 2
  {
    var raw := if v < 0 then v + 0x1_0000 else v;
    [raw % 256, raw / 256]
  }

  lemma IntBytesRoundTrip(v: int)
    requires IsInt32(v)
    ensures BytesToInt(IntBytes(v)) == v
  {
    WordBijection(IntWord(v), []);
    IntWordRoundTrip(v);
  }

  /**
   * An event the engine encodes as two `int` parameters and an `int` or
   * `short` value decodes to those numbers, unless the first parameter or the
   * value is -1, in which case it is dropped.
   */
  lemma ParameterChangeRoundTrip(status: int, p1: int, p2: int, v: int, shortValue: bool)
    requires IsInt32(p1) && IsInt32(p2) && IsInt32(v)
    requires shortValue ==> -0x8000 <= v < 0x8000
    ensures var value := if shortValue then ShortBytes(v) else IntBytes(v);
            DecodeParameterChange(status, IntBytes(p1) + IntBytes(p2), value)
            == if p1 != -1 && v != -1 then Some(ParameterChange(status, p1, p2, v)) else None
  {
    var param := IntBytes(p1) + IntBytes(p2);
    IntBytesRoundTrip(p1);
    IntBytesRoundTrip(p2);
    IntBytesRoundTrip(v);
    assert param[..4] == IntBytes(p1) && param[4..] == IntBytes(p2);
    assert WordOf(param) == WordOf(param[..4]);
  }

  /** A parameter blob shorter than an `int` or a value blob of any other size never reaches the listener. */
  lemma MalformedEventsDropped(status: int, param: seq<Byte>, value: seq<Byte>)
    ensures |param| < 4 ==> DecodeParameterChange(status, param, value).None?
    ensures |value| != 2 && |value| != 4 ==> DecodeParameterChange(status, param, value).None?
  {
  }

  /** What `setParameterListener` leaves registered: the first listener ever given. */
  function Register(current: Option<int>, listener: int): Option<int> {
    if current.None? then Some(listener) else current
  }

  function RegisterAll(current: Option<int>, listeners: seq<int>): Option<int>
    decreases |listeners|
  {
    if listeners == [] then current else RegisterAll(Register(current, listeners[0]), listeners[1..])
  }

  /** After any sequence of registrations on a fresh effect, the first listener is the registered one. */
  lemma {:induction false} FirstListenerWins(current: Option<int>, listeners: seq<int>)
    ensures RegisterAll(current, listeners)
         == if current.Some? then current else if listeners == [] then None else Some(listeners[0])
    decreases |listeners|
  {
    if listeners != [] {
      FirstListenerWins(Register(current, listeners[0]), listeners[1..]);
    }
  }

  /**
   * The effect object: the preset table read while constructing it and the
   * registered parameter listener. Listeners are identified by an integer;
   * `baseRegistrations` counts the tasks `setParameterListener` has handed to
   * its executor to register the internal `BaseParameterListener`.
   */
  class RockchipEqualizer {
    var numPresets: int
    var presetNames: seq<string>
    ghost var presetValues: seq<NameBuffer>
    var paramListener: Option<int>
    var baseRegistrations: nat

    ghost predicate Valid()
      reads this
    {
      numPresets >= 0 && |presetNames| == numPresets && |presetValues| == numPresets
      && forall i :: 0 <= i < numPresets ==> HasNul(presetValues[i]) && presetNames[i] == PresetName(presetValues[i])
    }

    constructor Init(numPresets: nat, names: seq<string>, ghost values: seq<NameBuffer>)
      requires |names| == numPresets && |values| == numPresets
      requires forall i :: 0 <= i < numPresets ==> HasNul(values[i]) && names[i] == PresetName(values[i])
      ensures Valid() && this.numPresets == numPresets && presetNames == names && presetValues == values
      ensures paramListener.None? && baseRegistrations == 0
    {
      this.numPresets := numPresets;
      presetNames := names;
      presetValues := values;
      paramListener := None;
      baseRegistrations := 0;
    }

    /**
     * The constructor: `numPresets` is what the engine reports and `replies[i]`
     * is the value array after the query for preset `i`. `None` where a
     * negative count makes the name array allocation throw, or where a reply
     * has no NUL and the length scan runs off the array.
     */
    static method Open(numPresets: int, replies: seq<NameBuffer>) returns (r: Option<RockchipEqualizer>)
      requires numPresets <= |replies|
      ensures r.None? <==> numPresets < 0 || exists i :: 0 <= i < numPresets && !HasNul(replies[i])
      ensures r.Some? ==> fresh(r.value) && r.value.Valid() && r.value.numPresets == numPresets
      ensures r.Some? ==> r.value.presetValues == replies[..numPresets]
      ensures r.Some? ==> r.value.paramListener.None? && r.value.baseRegistrations == 0
    {
      if numPresets < 0 {
        return None;
      }
      var names: seq<string> := [];
      for i := 0 to numPresets
        invariant |names| == i && forall j :: 0 <= j < i ==> HasNul(replies[j]) && names[j] == PresetName(replies[j])
      {
        var length := NameLength(replies[i]);
        if length.None? {
          return None;
        }
        assert length.value == FirstNul(replies[i]);
        names := names + [Latin1(replies[i][..length.value])];
      }
      var e := new RockchipEqualizer.Init(numPresets, names, replies[..numPresets]);
      r := Some(e);
    }

    /** `getPresetName`: the stored name, or "" for an index outside the table. */
    function GetPresetName(preset: int): (name: string)
      reads this
      requires Valid()
      ensures !(0 <= preset < numPresets) ==> name == ""
      ensures 0 <= preset < numPresets ==> name == PresetName(presetValues[preset])
      ensures |name| < PARAM_STRING_SIZE_MAX && forall i :: 0 <= i < |name| ==> name[i] != 0 as char
    {
      if 0 <= preset < numPresets then presetNames[preset] else ""
    }

    /** `setParameterListener`: only the first listener is kept, and only then is the base listener scheduled. */
    method SetParameterListener(listener: int)
      modifies this`paramListener, this`baseRegistrations
      ensures paramListener == Register(old(paramListener), listener)
      ensures baseRegistrations == old(baseRegistrations) + (if old(paramListener).None? then 1 else 0)
    {
      if paramListener.None? {
        paramListener := Some(listener);
        baseRegistrations := baseRegistrations + 1;
      }
    }

    /** `BaseParameterListener.onParameterChange`: the listener and event delivered, if any. */
    method OnParameterChange(status: int, param: seq<Byte>, value: seq<Byte>)
        returns (delivered: Option<(int, ParameterChange)>)
      ensures delivered.Some? <==> paramListener.Some? && DecodeParameterChange(status, param, value).Some?
      ensures delivered.Some? ==>
                delivered.value == (paramListener.value, DecodeParameterChange(status, param, value).value)
    {
      var l := paramListener;
      if l.None? {
        return None;
      }
      var p1, p2, v := -1, -1, -1;
      if |param| >= 4 {
        p1 := BytesToInt(param);
        if |param| >= 8 {
          p2 := BytesToInt(param[4..]);
        }
      }
      if |value| == 2 {
        v := BytesToShort(value);
      } else if |value| == 4 {
        v := BytesToInt(value);
      }
      if p1 != -1 && v != -1 {
        return Some((l.value, ParameterChange(status, p1, p2, v)));
      }
      return None;
    }

    /** `getProperties`: the settings read from the 2180 bytes the engine returns. */
    method GetProperties(param: seq<Byte>) returns (settings: Settings)
      requires |param| == SETTINGS_SIZE
      ensures settings.Canonical() && settings.Words() == WordsOf(param)
    {
      var s := Settings.FromBytes(param);
      settings := s.value;
    }

    /** `setProperties`: the bytes handed to the engine; `None` where `toBytes` throws. */
    method SetProperties(settings: Settings) returns (param: Option<seq<Byte>>)
      ensures param.Some? <==> settings.Writable()
      ensures param.Some? ==> param.value == WordsBytes(settings.Words()) && |param.value| == SETTINGS_SIZE
    {
      param := settings.ToBytes();
    }
  }

  /** Saving the properties and restoring them gives back the saved settings. */
  lemma PropertiesRoundTrip(param: seq<Byte>, saved: Settings, restored: seq<Byte>)
    requires |param| == SETTINGS_SIZE && saved.Canonical() && saved.Words() == WordsOf(param)
    requires saved.Writable() && restored == WordsBytes(saved.Words())
    ensures restored == param
  {
    BytesSettingsRoundTrip(param, saved);
    assert WordsOf(param)[..545] == WordsOf(param);
    assert param[..SETTINGS_SIZE] == param;
  }
}
