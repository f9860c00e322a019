/** The in-place sample loops of out_write: separating haptic data and mixing stereo down to mono. */
module PcmLoops {
  import opened Wrappers

  // ---------------------------------------------------------------- haptics

  lemma {:induction false} Bounds(i: nat, n: nat, w: nat)
    requires i < n
    ensures (i + 1) * w == i * w + w <= n * w
    decreases n
  {
    if i + 1 < n {
      Bounds(i, n - 1, w);
      assert n * w == (n - 1) * w + w;
    }
  }

  lemma WidthBounds(n: nat, a: nat, h: nat)
    ensures n * a + n * h == n * (a + h)
    ensures n * a <= n * (a + h) && n * h <= n * (a + h)
  {
  }

  /** Bytes `from` to `from + len` of every frame of `width` bytes, frames in order. */
  function Slices(s: seq<byte>, width: nat, from: nat, len: nat, n: nat): (r: seq<byte>)
    requires from + len <= width && n * width <= |s|
    ensures |r| == n * len
  {
    if n == 0 then []
    else
      Bounds(n - 1, n, width);
      Bounds(n - 1, n, len);
      Slices(s, width, from, len, n - 1) + s[(n - 1) * width + from..(n - 1) * width + from + len]
  }

  /** The byte at each position of the separated data. */
  lemma {:induction false} SlicesAt(s: seq<byte>, width: nat, from: nat, len: nat, n: nat, i: nat, j: nat)
    requires from + len <= width && n * width <= |s| && i < n && j < len
    ensures i * len + j < n * len && i * width + from + j < |s|
    ensures Slices(s, width, from, len, n)[i * len + j] == s[i * width + from + j]
  {
    Bounds(i, n, len);
    Bounds(i, n, width);
    Bounds(n - 1, n, width);
    var m := n - 1;
    var front, last := Slices(s, width, from, len, m), s[m * width + from..m * width + from + len];
    assert Slices(s, width, from, len, n) == front + last;
    if i < m {
      Bounds(i, m, len);
      SlicesAt(s, width, from, len, m, i, j);
      assert (front + last)[i * len + j] == front[i * len + j];
    } else {
      assert i * len + j == |front| + j && (front + last)[|front| + j] == last[j];
    }
  }

  /** Audio and haptic data put back together, frame by frame. */
  function Interleave(audio: seq<byte>, haptic: seq<byte>, a: nat, h: nat, n: nat): seq<byte>
    requires |audio| == n * a && |haptic| == n * h
  {
    if n == 0 then []
    else
      Bounds(n - 1, n, a);
      Bounds(n - 1, n, h);
      Interleave(audio[..(n - 1) * a], haptic[..(n - 1) * h], a, h, n - 1) + audio[(n - 1) * a..]
        + haptic[(n - 1) * h..]
  }

  lemma LastSlice(s: seq<byte>, width: nat, from: nat, len: nat, m: nat)
    requires from + len <= width && (m + 1) * width <= |s|
    ensures m * len <= (m + 1) * len && m * width + width == (m + 1) * width
    ensures Slices(s, width, from, len, m + 1)[..m * len] == Slices(s, width, from, len, m)
    ensures Slices(s, width, from, len, m + 1)[m * len..] == s[m * width + from..m * width + from + len]
  {
    Bounds(m, m + 1, width);
    Bounds(m, m + 1, len);
    assert |Slices(s, width, from, len, m)| == m * len;
  }

  lemma ThreeParts(s: seq<byte>, from: nat, a: nat, h: nat)
    requires from + a + h <= |s|
    ensures s[..from + a + h] == s[..from] + s[from..from + a] + s[from + a..from + a + h]
  {
  }

  /** Interleaving puts the last frame behind the others. */
  lemma InterleaveLast(audio: seq<byte>, haptic: seq<byte>, a: nat, h: nat, m: nat)
    requires |audio| == (m + 1) * a && |haptic| == (m + 1) * h
    ensures m * a <= |audio| && m * h <= |haptic|
    ensures Interleave(audio, haptic, a, h, m + 1)
            == Interleave(audio[..m * a], haptic[..m * h], a, h, m) + audio[m * a..] + haptic[m * h..]
  {
    Bounds(m, m + 1, a);
    Bounds(m, m + 1, h);
  }

  /** Separation loses nothing: interleaving the parts gives the frames back. */
  lemma {:induction false} InterleaveRestores(s: seq<byte>, a: nat, h: nat, n: nat)
    requires n * (a + h) <= |s|
    ensures Interleave(Slices(s, a + h, 0, a, n), Slices(s, a + h, a, h, n), a, h, n) == s[..n * (a + h)]
  {
    if n > 0 {
      var w, m := a + h, n - 1;
      var audio, haptic := Slices(s, w, 0, a, n), Slices(s, w, a, h, n);
      LastSlice(s, w, 0, a, m);
      LastSlice(s, w, a, h, m);
      InterleaveLast(audio, haptic, a, h, m);
      InterleaveRestores(s, a, h, m);
      ThreeParts(s, m * w, a, h);
    }
  }

  /** The first `i` frames are separated and everything behind them is untouched. */
  ghost predicate Separated(buffer: seq<byte>, haptic: seq<byte>, s: seq<byte>, hs: seq<byte>, i: nat, a: nat, h: nat,
                            aud: nat, hap: nat) {
    && |buffer| == |s| && |haptic| == |hs| && i * (a + h) <= |s|
    && aud == i * a <= |s| && hap == i * h <= |hs|
    && buffer == Slices(s, a + h, 0, a, i) + s[aud..]
    && haptic == Slices(s, a + h, a, h, i) + hs[hap..]
  }

  /** Separates frame `i`. */
  method SeparateFrame(buffer: array<byte>, hapticBuffer: array<byte>, i: nat, a: nat, h: nat, src: nat, aud: nat,
                       hap: nat,
                       ghost s: seq<byte>, ghost hs: seq<byte>)
    returns (src': nat, aud': nat, hap': nat)
    requires buffer != hapticBuffer && src == i * (a + h)
    requires Separated(buffer[..], hapticBuffer[..], s, hs, i, a, h, aud, hap)
    requires src + a + h <= buffer.Length && hap + h <= hapticBuffer.Length
    modifies buffer, hapticBuffer
    ensures src' == src + a + h && Separated(buffer[..], hapticBuffer[..], s, hs, i + 1, a, h, aud', hap')
  {
    WidthBounds(i, a, h);
    Bounds(i, i + 1, a + h);
    Bounds(i, i + 1, a);
    Bounds(i, i + 1, h);
    ghost var audio, haptic := Slices(s, a + h, 0, a, i), Slices(s, a + h, a, h, i);
    src', aud' := CopyWithin(buffer, src, aud, a, audio, s);
    SliceBehind(audio + s[src..src + a], s, aud', src', h);
    src', hap' := CopyAcross(buffer, hapticBuffer, src', hap, h, haptic, hs);
  }

  /** Behind a changed front the sequence is the old one. */
  lemma SliceBehind(front: seq<byte>, s: seq<byte>, m: nat, x: nat, len: nat)
    requires |front| == m <= x && x + len <= |s|
    ensures |front + s[m..]| == |s| && (front + s[m..])[x..x + len] == s[x..x + len]
  {
  }

  /** Moves the audio part of every frame to the front of the buffer, in place, and the haptic part to
    its own buffer. */
  method SeparateHaptics(buffer: array<byte>, hapticBuffer: array<byte>, frameCount: nat, a: nat, h: nat)
    requires buffer != hapticBuffer && frameCount * (a + h) <= buffer.Length && frameCount * h <= hapticBuffer.Length
    modifies buffer, hapticBuffer
    ensures frameCount * a <= buffer.Length
    ensures buffer[..] == Slices(old(buffer[..]), a + h, 0, a, frameCount) + old(buffer[..])[frameCount * a..]
    ensures hapticBuffer[..]
            == Slices(old(buffer[..]), a + h, a, h, frameCount) + old(hapticBuffer[..])[frameCount * h..]
  {
    ghost var s, hs := buffer[..], hapticBuffer[..];
    var src, aud, hap := 0, 0, 0;
    for i := 0 to frameCount
      invariant src == i * (a + h) && Separated(buffer[..], hapticBuffer[..], s, hs, i, a, h, aud, hap)
    {
      Bounds(i, frameCount, a + h);
      Bounds(i, frameCount, h);
      src, aud, hap := SeparateFrame(buffer, hapticBuffer, i, a, h, src, aud, hap, s, hs);
      Bounds(i, i + 1, a + h);
    }
  }

  /** Copies `len` bytes from `src` down to `dst` in the same buffer, byte by byte. */
  method CopyWithin(buffer: array<byte>, src: nat, dst: nat, len: nat, ghost front: seq<byte>, ghost s: seq<byte>)
    returns (src': nat, dst': nat)
    requires |front| == dst <= src && src + len <= buffer.Length == |s| && buffer[..] == front + s[dst..]
    modifies buffer
    ensures src' == src + len && dst' == dst + len
    ensures buffer[..] == front + s[src..src + len] + s[dst'..]
  {
    src', dst' := src, dst;
    for j := 0 to len
      invariant src' == src + j && dst' == dst + j
      invariant buffer[..] == front + s[src..src + j] + s[dst'..]
    {
      assert buffer[..][src'] == s[src'];
      buffer[dst'] := buffer[src'];
      assert s[src..src + j + 1] == s[src..src + j] + [s[src + j]];
      src', dst' := src' + 1, dst' + 1;
    }
  }

  method CopyAcross(from: array<byte>, to: array<byte>, src: nat, dst: nat, len: nat, ghost front: seq<byte>,
                    ghost s: seq<byte>) returns (src': nat, dst': nat)
    requires from != to && src + len <= from.Length && |front| == dst && dst + len <= to.Length == |s|
             && to[..] == front + s[dst..]
    modifies to
    ensures src' == src + len && dst' == dst + len
    ensures to[..] == front + from[..][src..src + len] + s[dst'..]
  {
    src', dst' := src, dst;
    ghost var all := from[..];
    for j := 0 to len
      invariant src' == src + j && dst' == dst + j && from[..] == all
      invariant to[..] == front + all[src..src + j] + s[dst'..]
    {
      assert from[src'] == all[src'];
      to[dst'] := from[src'];
      assert all[src..src + j + 1] == all[src..src + j] + [all[src + j]];
      src', dst' := src' + 1, dst' + 1;
    }
  }

  // ---------------------------------------------------------------- mono

  predicate IsSample(x: int) {
    -0x8000 <= x < 0x8000
  }

  /** Conversion to a 16-bit sample. */
  function ToSample(x: int): int {
    (x + 0x8000) % 0x1_0000 - 0x8000
  }

  /** The mean of two samples, rounded down. */
  function Mean(x: int, y: int): int {
    (x + y) / 2
  }

  lemma MeanIsSample(x: int, y: int)
    requires IsSample(x) && IsSample(y)
    ensures IsSample(Mean(x, y)) && ToSample(Mean(x, y)) == Mean(x, y)
    ensures 2 * Mean(x, y) <= x + y < 2 * Mean(x, y) + 2
  {
  }

  predicate AllSamples(s: seq<int>) {
    forall k | 0 <= k < |s| :: IsSample(s[k])
  }

  /** The means of the first `n` stereo pairs. */
  function Mono(s: seq<int>, n: nat): (r: seq<int>)
    requires 2 * n <= |s|
    ensures |r| == n
    ensures AllSamples(s) ==> AllSamples(r)
  {
    if n == 0 then [] else Mono(s, n - 1) + [Mean(s[2 * n - 2], s[2 * n - 1])]
  }

  /** The buffer after `i` pairs were mixed. */
  ghost function Mixed(s: seq<int>, i: nat): (r: seq<int>)
    requires 2 * i <= |s|
    ensures |r| == |s|
  {
    Mono(s, i) + s[i..]
  }

  /** Mixing a pair finds it as it was and extends the means by one. */
  lemma MixedStep(s: seq<int>, i: nat)
    requires 2 * i + 1 < |s|
    ensures Mixed(s, i)[2 * i] == s[2 * i] && Mixed(s, i)[2 * i + 1] == s[2 * i + 1]
    ensures Mixed(s, i)[i := Mean(s[2 * i], s[2 * i + 1])] == Mixed(s, i + 1)
  {
    assert Mono(s, i + 1) == Mono(s, i) + [Mean(s[2 * i], s[2 * i + 1])];
  }

  method MixPair(buffer: array<int>, src: nat, dst: nat)
    requires src + 1 < buffer.Length && dst < buffer.Length
    requires IsSample(buffer[src]) && IsSample(buffer[src + 1])
    modifies buffer
    ensures buffer[..] == old(buffer[..])[dst := Mean(old(buffer[src]), old(buffer[src + 1]))]
  {
    MeanIsSample(buffer[src], buffer[src + 1]);
    buffer[dst] := ToSample((buffer[src] + buffer[src + 1]) / 2);
  }

  /** Replaces each stereo pair by its mean, in place: the mono samples are at the front, nothing is
    truncated, and the rest of the buffer is as before. */
  method MixDown(buffer: array<int>, frames: nat)
    requires 2 * frames <= buffer.Length && AllSamples(buffer[..])
    modifies buffer
    ensures buffer[..] == Mono(old(buffer[..]), frames) + old(buffer[..])[frames..]
    ensures AllSamples(buffer[..])
  {
    ghost var s := buffer[..];
    var src, dst := 0, 0;
    for i := 0 to frames
      invariant dst == i && src == 2 * i
      invariant buffer[..] == Mixed(s, i)
    {
      MixedStep(s, i);
      assert buffer[src] == buffer[..][src] && buffer[src + 1] == buffer[..][src + 1];
      MixPair(buffer, src, dst);
      dst := dst + 1;
      src := src + 2;
    }
  }
}
