/** Choosing, per resolution, the capture format that stream requests are served from. */
module StreamFormats {
  import opened Wrappers

  datatype SupportedFormat = SupportedFormat(width: nat, height: nat, fourcc: nat, frameRates: seq<real>) {
    predicate Covers(w: nat, h: nat) {
      width == w && height == h
    }
  }

  const V4L2_PIX_FMT_YUYV := 0x56595559
  const V4L2_PIX_FMT_MJPEG := 0x47504A4D
  const V4L2_PIX_FMT_YUV420 := 0x32315559

  /** Formats frames can be captured in, the most preferred first. */
  const SupportedFourccs := [V4L2_PIX_FMT_YUYV, V4L2_PIX_FMT_MJPEG]

  /** Does one of the formats have this resolution? */
  ghost predicate Available(formats: seq<SupportedFormat>, w: nat, h: nat) {
    exists i :: 0 <= i < |formats| && formats[i].Covers(w, h)
  }

  method FindFormatByResolution(formats: seq<SupportedFormat>, w: nat, h: nat) returns (f: Option<SupportedFormat>)
    ensures f.Some? <==> Available(formats, w, h)
    ensures f.Some? ==> exists i :: 0 <= i < |formats| && formats[i] == f.value && f.value.Covers(w, h)
                                    && forall j | 0 <= j < i :: !formats[j].Covers(w, h)
  {
    for i := 0 to |formats|
      invariant forall j | 0 <= j < i :: !formats[j].Covers(w, h)
    {
      if formats[i].Covers(w, h) {
        return Some(formats[i]);
      }
    }
    return None;
  }

  /** `f` is what the first `p` preferred formats, and of the next one the first `n` entries, offer
    best for its resolution: no entry with that resolution comes earlier in this order. */
  ghost predicate IsChoice(supported: seq<SupportedFormat>, f: SupportedFormat, q: nat, k: nat) {
    && q < |SupportedFourccs| && k < |supported| && f == supported[k] && f.fourcc == SupportedFourccs[q]
    && (forall j | 0 <= j < |supported| && supported[j].Covers(f.width, f.height) ::
      supported[j].fourcc !in SupportedFourccs[..q])
    && (forall j | 0 <= j < k && supported[j].Covers(f.width, f.height) :: supported[j].fourcc != SupportedFourccs[q])
  }

  ghost predicate Chosen(supported: seq<SupportedFormat>, f: SupportedFormat) {
    exists q: nat, k: nat :: IsChoice(supported, f, q, k)
  }

  /** One entry per resolution, each the best choice, and none missing among those seen so far: all
    entries of the first `p` preferred formats and the first `n` entries of the next. */
  ghost predicate Qualifies(supported: seq<SupportedFormat>, qualified: seq<SupportedFormat>, p: nat, n: nat)
    requires p <= |SupportedFourccs| && n <= |supported|
  {
    && (forall i, j | 0 <= i < j < |qualified| :: !qualified[i].Covers(qualified[j].width, qualified[j].height))
    && (forall f | f in qualified ::
      Chosen(supported, f) && f.fourcc in SupportedFourccs[..if p < |SupportedFourccs| then p + 1 else p])
    && (forall k | 0 <= k < |supported| && Seen(supported, p, n, k) ::
      Available(qualified, supported[k].width, supported[k].height))
    && (forall f | f in qualified :: exists k :: 0 <= k < |supported| && Seen(supported, p, n, k) && supported[k] == f)
  }

  ghost predicate Seen(supported: seq<SupportedFormat>, p: nat, n: nat, k: nat)
    requires p <= |SupportedFourccs| && k < |supported|
  {
    supported[k].fourcc in SupportedFourccs[..p]
      || (p < |SupportedFourccs| && k < n && supported[k].fourcc == SupportedFourccs[p])
  }

  /** An entry whose resolution is not covered yet is the best choice for it. */
  lemma AddQualifies(supported: seq<SupportedFormat>, qualified: seq<SupportedFormat>, p: nat, n: nat)
    requires p < |SupportedFourccs| && n < |supported| && Qualifies(supported, qualified, p, n)
    requires supported[n].fourcc == SupportedFourccs[p]
             && !Available(qualified, supported[n].width, supported[n].height)
    ensures Qualifies(supported, qualified + [supported[n]], p, n + 1)
  {
    var f, all := supported[n], qualified + [supported[n]];
    forall j | 0 <= j < |supported| && supported[j].Covers(f.width, f.height)
      ensures !Seen(supported, p, n, j)
    {
    }
    assert IsChoice(supported, f, p, n);
    forall g | g in all
      ensures Chosen(supported, g) && g.fourcc in SupportedFourccs[..p + 1]
      ensures exists k :: 0 <= k < |supported| && Seen(supported, p, n + 1, k) && supported[k] == g
    {
      if g in qualified {
        var k :| 0 <= k < |supported| && Seen(supported, p, n, k) && supported[k] == g;
        assert Seen(supported, p, n + 1, k);
      } else {
        assert Seen(supported, p, n + 1, n);
      }
    }
    forall k | 0 <= k < |supported| && Seen(supported, p, n + 1, k)
      ensures Available(all, supported[k].width, supported[k].height)
    {
      if k == n {
        assert all[|qualified|].Covers(supported[k].width, supported[k].height);
      } else {
        assert Seen(supported, p, n, k);
        var i :| 0 <= i < |qualified| && qualified[i].Covers(supported[k].width, supported[k].height);
        assert all[i] == qualified[i];
      }
    }
  }

  method GetQualifiedFormats(supported: seq<SupportedFormat>) returns (qualified: seq<SupportedFormat>)
    ensures Qualifies(supported, qualified, |SupportedFourccs|, 0)
  {
    qualified := [];
    for p := 0 to |SupportedFourccs|
      invariant Qualifies(supported, qualified, p, 0)
    {
      for n := 0 to |supported|
        invariant Qualifies(supported, qualified, p, n)
      {
        var f := supported[n];
        if f.fourcc != SupportedFourccs[p] {
          SkipQualifies(supported, qualified, p, n);
          continue;
        }
        var found := FindFormatByResolution(qualified, f.width, f.height);
        if found.Some? {
          SkipQualifies(supported, qualified, p, n);
          continue;
        }
        AddQualifies(supported, qualified, p, n);
        qualified := qualified + [f];
      }
      NextQualifies(supported, qualified, p);
    }
  }

  lemma SkipQualifies(supported: seq<SupportedFormat>, qualified: seq<SupportedFormat>, p: nat, n: nat)
    requires p < |SupportedFourccs| && n < |supported| && Qualifies(supported, qualified, p, n)
    requires supported[n].fourcc != SupportedFourccs[p] || Available(qualified, supported[n].width, supported[n].height)
    ensures Qualifies(supported, qualified, p, n + 1)
  {
    forall f | f in qualified
      ensures exists k :: 0 <= k < |supported| && Seen(supported, p, n + 1, k) && supported[k] == f
    {
      var k :| 0 <= k < |supported| && Seen(supported, p, n, k) && supported[k] == f;
      assert Seen(supported, p, n + 1, k);
    }
    forall k | 0 <= k < |supported| && Seen(supported, p, n + 1, k)
      ensures Available(qualified, supported[k].width, supported[k].height)
    {
      assert k == n || Seen(supported, p, n, k);
    }
  }

  lemma NextQualifies(supported: seq<SupportedFormat>, qualified: seq<SupportedFormat>, p: nat)
    requires p < |SupportedFourccs| && Qualifies(supported, qualified, p, |supported|)
    ensures Qualifies(supported, qualified, p + 1, 0)
  {
    assert SupportedFourccs[..p + 1] == SupportedFourccs[..p] + [SupportedFourccs[p]];
    forall k | 0 <= k < |supported|
      ensures Seen(supported, p + 1, 0, k) <==> Seen(supported, p, |supported|, k)
    {
    }
    forall f | f in qualified
      ensures f.fourcc in SupportedFourccs[..if p + 1 < |SupportedFourccs| then p + 2 else p + 1]
    {
      assert f.fourcc in SupportedFourccs[..p + 1];
      var i :| 0 <= i < p + 1 && SupportedFourccs[i] == f.fourcc;
      assert SupportedFourccs[..if p + 1 < |SupportedFourccs| then p + 2 else p + 1][i] == f.fourcc;
    }
    forall f | f in qualified
      ensures exists k :: 0 <= k < |supported| && Seen(supported, p + 1, 0, k) && supported[k] == f
    {
      var k :| 0 <= k < |supported| && Seen(supported, p, |supported|, k) && supported[k] == f;
      assert Seen(supported, p + 1, 0, k);
    }
  }

  /** Of each resolution YUYV is chosen if it is supported, else MJPEG, and of several entries the first. */
  lemma ChosenIsPreferred(supported: seq<SupportedFormat>, f: SupportedFormat)
    requires Chosen(supported, f)
    ensures f.fourcc == (if Exact(supported, 0x56595559, f.width, f.height) then 0x56595559 else 0x47504A4D)
    ensures exists k :: && 0 <= k < |supported| && supported[k] == f
                        && forall j | 0 <= j < k && supported[j].Covers(f.width, f.height) ::
                             supported[j].fourcc != f.fourcc
  {
    var q: nat, k: nat :| IsChoice(supported, f, q, k);
    var preferred := SupportedFourccs;
    assert preferred[0] == 0x56595559 && preferred[1] == 0x47504A4D;
    assert supported[k].Covers(f.width, f.height);
    if q == 1 {
      assert preferred[..1] == [0x56595559];
    }
  }

  ghost predicate Exact(formats: seq<SupportedFormat>, fourcc: nat, w: nat, h: nat) {
    exists i :: 0 <= i < |formats| && formats[i].fourcc == fourcc && formats[i].Covers(w, h)
  }

  /** The exact format if it is supported, else one of that resolution the request can be converted
    from, if the conversion is possible. */
  method FindBestFitFormat(supported: seq<SupportedFormat>, qualified: seq<SupportedFormat>, fourcc: nat, w: nat,
                           h: nat, converts: bool)
    returns (f: Option<SupportedFormat>)
    ensures f.Some? <==> Exact(supported, fourcc, w, h) || (converts && Available(qualified, w, h))
    ensures f.Some? ==> f.value.Covers(w, h)
    ensures Exact(supported, fourcc, w, h) ==> f.value.fourcc == fourcc && f.value in supported
    ensures f.Some? && !Exact(supported, fourcc, w, h) ==> f.value in qualified
  {
    for i := 0 to |supported|
      invariant forall j | 0 <= j < i :: !(supported[j].fourcc == fourcc && supported[j].Covers(w, h))
    {
      if supported[i].fourcc == fourcc && supported[i].Covers(w, h) {
        return Some(supported[i]);
      }
    }
    if !converts {
      return None;
    }
    for i := 0 to |qualified|
      invariant forall j | 0 <= j < i :: !qualified[j].Covers(w, h)
    {
      if qualified[i].Covers(w, h) {
        return Some(qualified[i]);
      }
    }
    return None;
  }

  /** The qualified list covers exactly the resolutions available in a preferred format. */
  lemma QualifiedResolutions(supported: seq<SupportedFormat>, qualified: seq<SupportedFormat>, w: nat, h: nat)
    requires Qualifies(supported, qualified, |SupportedFourccs|, 0)
    ensures Available(qualified, w, h) <==>
            exists k :: 0 <= k < |supported| && supported[k].Covers(w, h) && supported[k].fourcc in SupportedFourccs
  {
    assert SupportedFourccs[..|SupportedFourccs|] == SupportedFourccs;
    if Available(qualified, w, h) {
      var i :| 0 <= i < |qualified| && qualified[i].Covers(w, h);
      assert qualified[i] in qualified;
      var k :| 0 <= k < |supported| && Seen(supported, |SupportedFourccs|, 0, k) && supported[k] == qualified[i];
      assert supported[k].Covers(w, h);
    }
    if k :| 0 <= k < |supported| && supported[k].Covers(w, h) && supported[k].fourcc in SupportedFourccs {
      assert Seen(supported, |SupportedFourccs|, 0, k);
    }
  }

  /** With the qualified list of the supported formats, a request is served exactly when its format is
    supported or it can be converted from a preferred format of its resolution. */
  method ServeRequest(supported: seq<SupportedFormat>, fourcc: nat, w: nat, h: nat, converts: bool)
    returns (f: Option<SupportedFormat>)
    ensures f.Some? <==> Exact(supported, fourcc, w, h)
                         || (converts && exists k ::
                           0 <= k < |supported| && supported[k].Covers(w, h) && supported[k].fourcc in SupportedFourccs)
    ensures f.Some? && !Exact(supported, fourcc, w, h) ==> Chosen(supported, f.value)
  {
    var qualified := GetQualifiedFormats(supported);
    QualifiedResolutions(supported, qualified, w, h);
    f := FindBestFitFormat(supported, qualified, fourcc, w, h, converts);
  }
}
