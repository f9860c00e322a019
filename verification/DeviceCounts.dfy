/** The conservation law of the sound device reference counts.

  A sound device is held by the use cases that name it and by every active combo device that
  splits onto it. Splitting may nest to any depth as long as it is acyclic, which
  `splitRank` witnesses. The law determines the counts from the holders. */
module DeviceCounts {

  type SndDevice = int

  const SND_DEVICE_NONE: SndDevice := 0
  const SND_DEVICE_MIN: SndDevice := 1

  /** What platform_can_split_snd_device reports for a device. */
  datatype SplitResult = NoSplit | Split(first: SndDevice, second: SndDevice) {
    function Parts(): (parts: seq<SndDevice>) {
      if NoSplit? then [] else [first, second]
    }
  }

  datatype Splitting = Splitting(sndDeviceMax: nat, split: SndDevice -> SplitResult, splitRank: SndDevice -> nat) {

    predicate Device(d: SndDevice) {
      SND_DEVICE_MIN <= d < sndDeviceMax
    }

    /** No chain of splits returns to its start. */
    ghost predicate Acyclic() {
      forall c, d {:trigger d in split(c).Parts()} :: d in split(c).Parts() ==> splitRank(d) < splitRank(c)
    }

    /** How often splitting `c` yields `d`. */
    function PartCount(c: SndDevice, d: SndDevice): nat {
      match split(c)
      case NoSplit => 0
      case Split(a, b) => (if a == d then 1 else 0) + (if b == d then 1 else 0)
    }

    /** The references that active combo devices below `n` hold on `d`. */
    function ComboRefs(counts: seq<int>, d: SndDevice, n: nat): nat
      requires n <= |counts|
    {
      if n <= SND_DEVICE_MIN then 0
      else ComboRefs(counts, d, n - 1) + if counts[n - 1] > 0 then PartCount(n - 1, d) else 0
    }

    /** Every device's count is the references held outside plus those of active combos. */
    ghost predicate Conserved(counts: seq<int>, held: multiset<SndDevice>) {
      && |counts| == sndDeviceMax
      && forall d {:trigger counts[d]} | Device(d) :: counts[d] == held[d] + ComboRefs(counts, d, |counts|)
    }

    /** Enabling `d` would start no device that fails to start. */
    ghost predicate StartsCleanly(counts: seq<int>, starts: SndDevice -> bool, d: SndDevice)
      requires |counts| == sndDeviceMax && Acyclic()
      decreases splitRank(d)
    {
      !Device(d) || counts[d] > 0 ||
      match split(d)
      case NoSplit => starts(d)
      case Split(a, b) =>
        assert a in split(d).Parts() && b in split(d).Parts();
        StartsCleanly(counts, starts, a) && StartsCleanly(counts, starts, b)
    }

    /** A device that cannot start and is not counted stays uncounted. */
    ghost predicate FailingStayZero(before: seq<int>, after: seq<int>, starts: SndDevice -> bool)
      requires |before| == |after| == sndDeviceMax
    {
      forall q {:trigger starts(q)} | Device(q) && split(q).NoSplit? && !starts(q) && before[q] <= 0 :: after[q] <= 0
    }
  }

  lemma {:induction false} ComboRefsUpdate(s: Splitting, counts: seq<int>, c: SndDevice, v: int, d: SndDevice, n: nat)
    requires |counts| == s.sndDeviceMax && s.Device(c) && n <= |counts|
    ensures s.ComboRefs(counts[c := v], d, n) ==
            s.ComboRefs(counts, d, n)
            + (if c < n && v > 0 then s.PartCount(c, d) else 0)
            - (if c < n && counts[c] > 0 then s.PartCount(c, d) else 0)
  {
    if n > SND_DEVICE_MIN {
      ComboRefsUpdate(s, counts, c, v, d, n - 1);
    }
  }

  /** References only grow when counts grow. */
  lemma {:induction false} ComboRefsMonotone(s: Splitting, before: seq<int>, after: seq<int>, d: SndDevice, n: nat)
    requires |before| == |after| == s.sndDeviceMax && n <= |before|
    requires forall x | s.Device(x) :: before[x] <= after[x]
    ensures s.ComboRefs(before, d, n) <= s.ComboRefs(after, d, n)
  {
    if n > SND_DEVICE_MIN {
      ComboRefsMonotone(s, before, after, d, n - 1);
    }
  }

  lemma {:induction false} ComboRefsAtLeast(s: Splitting, counts: seq<int>, c: SndDevice, d: SndDevice, n: nat)
    requires |counts| == s.sndDeviceMax && s.Device(c) && c < n <= |counts| && counts[c] > 0
    ensures s.ComboRefs(counts, d, n) >= s.PartCount(c, d)
  {
    if c < n - 1 {
      ComboRefsAtLeast(s, counts, c, d, n - 1);
    }
  }

  lemma {:induction false} ComboRefsAgree(s: Splitting, a: seq<int>, b: seq<int>, d: SndDevice, n: nat)
    requires |a| == |b| == s.sndDeviceMax && n <= |a|
    requires forall c | s.Device(c) && s.PartCount(c, d) > 0 :: a[c] == b[c]
    ensures s.ComboRefs(a, d, n) == s.ComboRefs(b, d, n)
  {
    if n > SND_DEVICE_MIN {
      ComboRefsAgree(s, a, b, d, n - 1);
    }
  }

  function MaxRank(s: Splitting, n: nat): (m: nat)
    ensures forall d | 0 <= d < n :: s.splitRank(d) <= m
  {
    if n == 0 then 0
    else
      var m := MaxRank(s, n - 1);
      if s.splitRank(n - 1) > m then s.splitRank(n - 1) else m
  }

  lemma {:induction false} SameCount(s: Splitting, a: seq<int>, b: seq<int>, held: multiset<SndDevice>, d: SndDevice)
    requires s.Acyclic() && s.Conserved(a, held) && s.Conserved(b, held) && s.Device(d)
    ensures a[d] == b[d]
    decreases MaxRank(s, s.sndDeviceMax) - s.splitRank(d)
  {
    forall c | s.Device(c) && s.PartCount(c, d) > 0
      ensures a[c] == b[c]
    {
      assert d in s.split(c).Parts();
      SameCount(s, a, b, held, c);
    }
    ComboRefsAgree(s, a, b, d, |a|);
  }

  /** The law leaves no freedom: the holders fix the count of every device. */
  lemma CountsAreDetermined(s: Splitting, a: seq<int>, b: seq<int>, held: multiset<SndDevice>)
    requires s.Acyclic() && s.Conserved(a, held) && s.Conserved(b, held)
    ensures forall d | s.Device(d) :: a[d] == b[d]
  {
    forall d | s.Device(d)
      ensures a[d] == b[d]
    {
      SameCount(s, a, b, held, d);
    }
  }

  lemma {:induction false} NoActiveCombos(s: Splitting, counts: seq<int>, d: SndDevice, n: nat)
    requires |counts| == s.sndDeviceMax && n <= |counts|
    requires forall c | s.Device(c) :: counts[c] <= 0
    ensures s.ComboRefs(counts, d, n) == 0
  {
    if n > SND_DEVICE_MIN {
      NoActiveCombos(s, counts, d, n - 1);
    }
  }

  lemma ZeroCountsConserved(s: Splitting, counts: seq<int>)
    requires |counts| == s.sndDeviceMax && forall d | s.Device(d) :: counts[d] == 0
    ensures s.Conserved(counts, multiset{})
  {
    forall d | s.Device(d)
      ensures counts[d] == multiset{}[d] + s.ComboRefs(counts, d, |counts|)
    {
      NoActiveCombos(s, counts, d, |counts|);
    }
  }

  /** With no holder left no combo can keep itself alive: all counts are zero. */
  lemma NothingHeldAllZero(s: Splitting, counts: seq<int>, held: multiset<SndDevice>)
    requires s.Acyclic() && s.Conserved(counts, held) && forall d | s.Device(d) :: held[d] == 0
    ensures forall d | s.Device(d) :: counts[d] == 0
  {
    var zero := seq(s.sndDeviceMax, _ => 0);
    ZeroCountsConserved(s, zero);
    assert s.Conserved(counts, multiset{});
    CountsAreDetermined(s, counts, zero, multiset{});
  }

  lemma StartsCleanlyMonotone(s: Splitting, before: seq<int>, after: seq<int>, starts: SndDevice -> bool, d: SndDevice)
    requires s.Acyclic() && |before| == |after| == s.sndDeviceMax
    requires forall x | s.Device(x) :: before[x] <= after[x]
    requires s.StartsCleanly(before, starts, d)
    ensures s.StartsCleanly(after, starts, d)
    decreases s.splitRank(d)
  {
    if s.Device(d) && before[d] <= 0 && s.split(d).Split? {
      assert s.split(d).first in s.split(d).Parts() && s.split(d).second in s.split(d).Parts();
      StartsCleanlyMonotone(s, before, after, starts, s.split(d).first);
      StartsCleanlyMonotone(s, before, after, starts, s.split(d).second);
    }
  }

  /** A device that could not start cleanly still cannot, in any conserved later state. */
  lemma {:induction false} UncleanStaysUnclean(s: Splitting, before: seq<int>, after: seq<int>,
                                               held: multiset<SndDevice>, starts: SndDevice -> bool, d: SndDevice)
    requires s.Acyclic() && |before| == s.sndDeviceMax && s.Conserved(after, held)
    requires s.FailingStayZero(before, after, starts)
    requires !s.StartsCleanly(before, starts, d)
    ensures !s.StartsCleanly(after, starts, d)
    decreases s.splitRank(d)
  {
    if s.split(d).Split? {
      var Split(a, b) := s.split(d);
      assert a in s.split(d).Parts() && b in s.split(d).Parts();
      var x := if !s.StartsCleanly(before, starts, a) then a else b;
      UncleanStaysUnclean(s, before, after, held, starts, x);
      if after[d] > 0 {
        ComboRefsAtLeast(s, after, d, x, |after|);
      }
    }
  }

  lemma AllStartsAreClean(s: Splitting, counts: seq<int>, starts: SndDevice -> bool, d: SndDevice)
    requires s.Acyclic() && |counts| == s.sndDeviceMax && forall x :: starts(x)
    ensures s.StartsCleanly(counts, starts, d)
    decreases s.splitRank(d)
  {
    if s.split(d).Split? {
      assert s.split(d).first in s.split(d).Parts() && s.split(d).second in s.split(d).Parts();
      AllStartsAreClean(s, counts, starts, s.split(d).first);
      AllStartsAreClean(s, counts, starts, s.split(d).second);
    }
  }

  /** Counting one more reference on `d`, when what its activation needs is already held. */
  lemma CountUp(s: Splitting, counts: seq<int>, held: multiset<SndDevice>, d: SndDevice)
    requires s.Device(d) && |counts| == s.sndDeviceMax && counts[d] >= 0
    requires s.Conserved(counts, if counts[d] == 0 then held + multiset(s.split(d).Parts()) else held)
    ensures s.Conserved(counts[d := counts[d] + 1], held + multiset{d})
  {
    var after := counts[d := counts[d] + 1];
    forall x | s.Device(x)
      ensures after[x] == (held + multiset{d})[x] + s.ComboRefs(after, x, |after|)
    {
      ComboRefsUpdate(s, counts, d, counts[d] + 1, x, |counts|);
      assert counts[d] == 0 ==> multiset(s.split(d).Parts())[x] == s.PartCount(d, x);
      assert after[x] == counts[x] + if x == d then 1 else 0;
    }
  }

  /** Giving up one reference on `d` leaves its parts to be given up when it was the last. */
  lemma CountDown(s: Splitting, counts: seq<int>, held: multiset<SndDevice>, d: SndDevice)
    requires s.Device(d) && s.Conserved(counts, held) && d in held
    ensures counts[d] >= 1
    ensures var rest := held - multiset{d};
            s.Conserved(counts[d := counts[d] - 1],
                        if counts[d] == 1 then rest + multiset(s.split(d).Parts()) else rest)
  {
    var after := counts[d := counts[d] - 1];
    var rest := held - multiset{d};
    var after_held := if counts[d] == 1 then rest + multiset(s.split(d).Parts()) else rest;
    forall x | s.Device(x)
      ensures after[x] == after_held[x] + s.ComboRefs(after, x, |after|)
    {
      ComboRefsUpdate(s, counts, d, counts[d] - 1, x, |counts|);
      assert multiset(s.split(d).Parts())[x] == s.PartCount(d, x);
      assert after[x] == counts[x] - if x == d then 1 else 0;
    }
  }

  // ---------------------------------------------------------------- taking and giving back references

  /** The counts after enabling `d`: the first reference starts a device or enables its parts. */
  ghost function Enabled(s: Splitting, starts: SndDevice -> bool, counts: seq<int>, d: SndDevice): (after: seq<int>)
    requires s.Acyclic() && |counts| == s.sndDeviceMax
    ensures |after| == |counts|
    ensures forall x {:trigger after[x]} | s.Device(x) :: counts[x] <= after[x]
    ensures forall x {:trigger after[x]} | s.Device(x) && x != d && s.splitRank(x) >= s.splitRank(d) ::
            after[x] == counts[x]
    decreases s.splitRank(d)
  {
    if !s.Device(d) then counts
    else if counts[d] >= 1 then counts[d := counts[d] + 1]
    else
      match s.split(d)
      case NoSplit => if starts(d) then counts[d := counts[d] + 1] else counts
      case Split(a, b) =>
        assert a in s.split(d).Parts() && b in s.split(d).Parts();
        Enabled(s, starts, Enabled(s, starts, counts, a), b)[d := counts[d] + 1]
  }

  /** The counts after disabling `d`: the last reference gives up the parts of a combo. */
  ghost function Disabled(s: Splitting, counts: seq<int>, d: SndDevice): (after: seq<int>)
    requires s.Acyclic() && |counts| == s.sndDeviceMax
    ensures |after| == |counts|
    decreases s.splitRank(d)
  {
    if !s.Device(d) || counts[d] <= 0 then counts
    else
      var fewer := counts[d := counts[d] - 1];
      match s.split(d)
      case NoSplit => fewer
      case Split(a, b) =>
        assert a in s.split(d).Parts() && b in s.split(d).Parts();
        if fewer[d] == 0 then Disabled(s, Disabled(s, fewer, a), b) else fewer
  }

  lemma {:induction false} EnabledKeepsFailingZero(s: Splitting, starts: SndDevice -> bool, counts: seq<int>,
                                                   d: SndDevice)
    requires s.Acyclic() && |counts| == s.sndDeviceMax
    ensures s.FailingStayZero(counts, Enabled(s, starts, counts, d), starts)
    decreases s.splitRank(d)
  {
    if s.Device(d) && counts[d] < 1 && s.split(d).Split? {
      var Split(a, b) := s.split(d);
      assert a in s.split(d).Parts() && b in s.split(d).Parts();
      EnabledKeepsFailingZero(s, starts, counts, a);
      EnabledKeepsFailingZero(s, starts, Enabled(s, starts, counts, a), b);
    }
  }

  lemma PartsAdded(held: multiset<SndDevice>, r: SplitResult)
    requires r.Split?
    ensures held + multiset{r.first} + multiset{r.second} == held + multiset(r.Parts())
  {
  }

  /** Counting a combo whose parts have been enabled. */
  lemma CountCombo(s: Splitting, counts: seq<int>, held: multiset<SndDevice>, d: SndDevice)
    requires s.Device(d) && s.split(d).Split? && |counts| == s.sndDeviceMax && counts[d] == 0
    requires s.Conserved(counts, held + multiset{s.split(d).first} + multiset{s.split(d).second})
    ensures s.Conserved(counts[d := 1], held + multiset{d})
  {
    PartsAdded(held, s.split(d));
    CountUp(s, counts, held, d);
  }

  lemma {:induction false} EnableConserves(s: Splitting, starts: SndDevice -> bool, counts: seq<int>,
                                           held: multiset<SndDevice>, d: SndDevice)
    requires s.Acyclic() && s.Conserved(counts, held) && s.StartsCleanly(counts, starts, d)
    ensures s.Conserved(Enabled(s, starts, counts, d), held + multiset{d})
    decreases s.splitRank(d)
  {
    if s.Device(d) {
      if counts[d] >= 1 || s.split(d).NoSplit? {
        assert s.split(d).NoSplit? ==> held + multiset(s.split(d).Parts()) == held;
        CountUp(s, counts, held, d);
      } else {
        var Split(a, b) := s.split(d);
        assert a in s.split(d).Parts() && b in s.split(d).Parts();
        var one := Enabled(s, starts, counts, a);
        var both := Enabled(s, starts, one, b);
        EnableConserves(s, starts, counts, held, a);
        StartsCleanlyMonotone(s, counts, one, starts, b);
        EnableConserves(s, starts, one, held + multiset{a}, b);
        assert counts[d] == one[d] == both[d] == 0;
        CountCombo(s, both, held, d);
      }
    }
  }

  lemma {:induction false} UncleanEnableBreaks(s: Splitting, starts: SndDevice -> bool, counts: seq<int>,
                                               held: multiset<SndDevice>, d: SndDevice)
    requires s.Acyclic() && s.Conserved(counts, held) && !s.StartsCleanly(counts, starts, d)
    ensures !s.Conserved(Enabled(s, starts, counts, d), held + multiset{d})
  {
    var after := Enabled(s, starts, counts, d);
    if s.Conserved(after, held + multiset{d}) {
      EnabledKeepsFailingZero(s, starts, counts, d);
      UncleanStaysUnclean(s, counts, after, held + multiset{d}, starts, d);
    }
  }

  /** Enabling keeps the law, with one more holder of `d`, exactly when nothing it starts fails. */
  lemma EnableConservesIff(s: Splitting, starts: SndDevice -> bool, counts: seq<int>,
                           held: multiset<SndDevice>, d: SndDevice)
    requires s.Acyclic() && s.Conserved(counts, held)
    ensures s.Conserved(Enabled(s, starts, counts, d), held + multiset{d}) <==> s.StartsCleanly(counts, starts, d)
  {
    if s.StartsCleanly(counts, starts, d) {
      EnableConserves(s, starts, counts, held, d);
    } else {
      UncleanEnableBreaks(s, starts, counts, held, d);
    }
  }

  /** Combo 1 splits onto 2 and 3. */
  const Combo := Splitting(4, d => if d == 1 then Split(2, 3) else NoSplit, d => if d == 1 then 1 else 0)

  /** A failing input: when 3 does not start, enabling the combo from idle counts it and 2 but not 3. */
  lemma FailingPartIsNotCounted()
    ensures Combo.Acyclic() && Combo.Conserved([0, 0, 0, 0], multiset{})
    ensures var after := Enabled(Combo, d => d != 3, [0, 0, 0, 0], 1);
            after == [0, 1, 1, 0] && !Combo.Conserved(after, multiset{1})
  {
    ZeroCountsConserved(Combo, [0, 0, 0, 0]);
    assert 2 in Combo.split(1).Parts() && 3 in Combo.split(1).Parts();
    var starts := d => d != 3;
    assert Enabled(Combo, starts, [0, 0, 0, 0], 2) == [0, 0, 1, 0];
    assert Enabled(Combo, starts, [0, 0, 1, 0], 3) == [0, 0, 1, 0];
    UncleanEnableBreaks(Combo, starts, [0, 0, 0, 0], multiset{}, 1);
    assert multiset{} + multiset{1} == multiset{1};
  }

  /** Disabling a held device keeps the law with one holder less. */
  lemma {:induction false} DisableConserves(s: Splitting, counts: seq<int>, held: multiset<SndDevice>, d: SndDevice)
    requires s.Acyclic() && s.Conserved(counts, held) && d in held
    ensures s.Conserved(Disabled(s, counts, d), held - multiset{d})
    decreases s.splitRank(d)
  {
    if s.Device(d) {
      CountDown(s, counts, held, d);
      var rest := held - multiset{d};
      if s.split(d).NoSplit? {
        assert rest + multiset(s.split(d).Parts()) == rest;
      } else if counts[d] == 1 {
        var Split(a, b) := s.split(d);
        assert a in s.split(d).Parts() && b in s.split(d).Parts();
        var fewer := counts[d := counts[d] - 1];
        PartsAdded(rest, s.split(d));
        DisableConserves(s, fewer, rest + multiset{a} + multiset{b}, a);
        assert rest + multiset{a} + multiset{b} - multiset{a} == rest + multiset{b};
        DisableConserves(s, Disabled(s, fewer, a), rest + multiset{b}, b);
        assert rest + multiset{b} - multiset{b} == rest;
      }
    }
  }

  /** Enabling and then disabling a device gives every count back. */
  lemma EnableThenDisable(s: Splitting, starts: SndDevice -> bool, counts: seq<int>, held: multiset<SndDevice>,
                          d: SndDevice)
    requires s.Acyclic() && s.Conserved(counts, held) && s.StartsCleanly(counts, starts, d)
    ensures forall x | s.Device(x) :: Disabled(s, Enabled(s, starts, counts, d), d)[x] == counts[x]
  {
    EnableConserves(s, starts, counts, held, d);
    var after := Enabled(s, starts, counts, d);
    DisableConserves(s, after, held + multiset{d}, d);
    assert held + multiset{d} - multiset{d} == held;
    CountsAreDetermined(s, Disabled(s, after, d), counts, held);
  }
}
