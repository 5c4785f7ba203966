/** The streaming voice-activity detector: a byte buffer, a rolling window of frame levels, and a hangover.

    What the detector reports is stated on the whole byte stream, without its state: an utterance ends at a frame
    when the moving average was loud exactly `hangover` frames earlier and has been quiet since. The level of a
    frame (its root mean square) is an arbitrary function of its bytes. */
module Vad {

  type Byte = b: int | 0 <= b < 256

  datatype Params = Params(frameBytes: nat, window: nat, hangover: nat, threshold: real, level: seq<Byte> -> real)

  datatype State = State(buffer: seq<Byte>, window: seq<real>, silentRun: nat, hadVoice: bool)

  predicate Usable(p: Params) { p.frameBytes > 0 && p.window > 0 && p.hangover > 0 }

  // ---------------------------------------------------------------- from bytes to frames

  /** The whole frames of a stream, and the bytes left over. */
  function Frames(n: nat, s: seq<Byte>): seq<seq<Byte>>
    requires n > 0
  {
    if |s| < n then [] else [s[..n]] + Frames(n, s[n..])
  }

  function Rest(n: nat, s: seq<Byte>): (r: seq<Byte>)
    requires n > 0
    ensures |r| < n
  {
    if |s| < n then s else Rest(n, s[n..])
  }

  /** Cutting a stream anywhere, and carrying the left-over bytes across the cut, finds the same frames. */
  lemma {:induction false} FramesAcrossCut(n: nat, a: seq<Byte>, b: seq<Byte>)
    requires n > 0
    ensures Frames(n, a + b) == Frames(n, a) + Frames(n, Rest(n, a) + b)
    ensures Rest(n, a + b) == Rest(n, Rest(n, a) + b)
    decreases |a|
  {
    if |a| >= n {
      assert (a + b)[..n] == a[..n] && (a + b)[n..] == a[n..] + b;
      FramesAcrossCut(n, a[n..], b);
    }
  }

  // ---------------------------------------------------------------- from frames to loudness

  function LevelsOf(p: Params, frames: seq<seq<Byte>>): seq<real> {
    seq(|frames|, i requires 0 <= i < |frames| => p.level(frames[i]))
  }

  function Levels(p: Params, stream: seq<Byte>): seq<real>
    requires Usable(p)
  {
    LevelsOf(p, Frames(p.frameBytes, stream))
  }

  function WindowStart(p: Params, n: nat): nat { if n <= p.window then 0 else n - p.window }

  function Sum(s: seq<real>): real { if s == [] then 0.0 else Sum(s[..|s| - 1]) + s[|s| - 1] }

  predicate IsLoud(p: Params, window: seq<real>) {
    window != [] && Sum(window) / |window| as real >= p.threshold
  }

  /** Which frames the moving average - over at most `window` frames - is loud at. */
  function Loud(p: Params, levels: seq<real>): (r: seq<bool>)
    ensures |r| == |levels|
    ensures forall i | 0 <= i < |levels| :: r[i] == IsLoud(p, levels[WindowStart(p, i + 1)..i + 1])
  {
    seq(|levels|, i requires 0 <= i < |levels| => IsLoud(p, levels[WindowStart(p, i + 1)..i + 1]))
  }

  /** The sum of the first `k` levels. */
  function SumTo(levels: seq<real>, k: nat): real
    requires k <= |levels|
  {
    if k == 0 then 0.0 else SumTo(levels, k - 1) + levels[k - 1]
  }

  lemma {:induction false} SumOfPart(levels: seq<real>, lo: nat, hi: nat)
    requires lo <= hi <= |levels|
    ensures Sum(levels[lo..hi]) == SumTo(levels, hi) - SumTo(levels, lo)
    decreases hi
  {
    if lo < hi {
      SumOfPart(levels, lo, hi - 1);
      assert levels[lo..hi][..hi - lo - 1] == levels[lo..hi - 1];
    }
  }

  /** A frame is loud if and only if the last `window` levels up to it - all, if there are fewer - sum up to the
      threshold for each of them. */
  lemma LoudIff(p: Params, levels: seq<real>, i: nat)
    requires Usable(p) && i < |levels|
    ensures var n := if i + 1 < p.window then i + 1 else p.window;
            Loud(p, levels)[i] <==> SumTo(levels, i + 1) - SumTo(levels, i + 1 - n) >= p.threshold * n as real
  {
    var lo := WindowStart(p, i + 1);
    SumOfPart(levels, lo, i + 1);
    Reaches(Sum(levels[lo..i + 1]), (i + 1 - lo) as real, p.threshold);
  }

  lemma Reaches(sum: real, n: real, threshold: real)
    requires n > 0.0
    ensures sum / n >= threshold <==> sum >= threshold * n
  {
    assert sum / n * n == sum;
    if sum / n >= threshold {
      assert (sum / n - threshold) * n >= 0.0;
    } else {
      assert (threshold - sum / n) * n > 0.0;
    }
  }

  lemma Cancels(x: real, y: real, n: real)
    requires n > 0.0
    ensures x * n >= y * n <==> x >= y
  {
    if x < y {
      assert (y - x) * n > 0.0;
    } else {
      assert (x - y) * n >= 0.0;
    }
  }

  lemma {:induction false} SumGrows(xs: seq<real>, ys: seq<real>, lo: nat, hi: nat)
    requires |xs| == |ys| && lo <= hi <= |xs| && forall j | lo <= j < hi :: xs[j] <= ys[j]
    ensures SumTo(xs, hi) - SumTo(xs, lo) <= SumTo(ys, hi) - SumTo(ys, lo)
    decreases hi
  {
    if lo < hi {
      SumGrows(xs, ys, lo, hi - 1);
    }
  }

  lemma {:induction false} SumOfEqual(levels: seq<real>, lo: nat, hi: nat, x: real)
    requires lo <= hi <= |levels| && forall j | lo <= j < hi :: levels[j] == x
    ensures SumTo(levels, hi) - SumTo(levels, lo) == x * (hi - lo) as real
    decreases hi
  {
    if lo < hi {
      SumOfEqual(levels, lo, hi - 1, x);
      assert x * (hi - lo) as real == x * (hi - 1 - lo) as real + x;
    }
  }

  /** So a window of equal levels is loud exactly when that level reaches the threshold, and no frame falls quiet
      because levels are raised. */
  lemma LoudnessFollowsLevels(p: Params, xs: seq<real>, ys: seq<real>, i: nat)
    requires Usable(p) && |xs| == |ys| && i < |xs|
    ensures var lo := if i + 1 < p.window then 0 else i + 1 - p.window;
            && ((forall j | lo <= j <= i :: xs[j] == xs[i]) ==> (Loud(p, xs)[i] <==> xs[i] >= p.threshold))
            && ((forall j | lo <= j <= i :: xs[j] <= ys[j]) && Loud(p, xs)[i] ==> Loud(p, ys)[i])
  {
    hide Loud, IsLoud, SumTo;
    var lo := if i + 1 < p.window then 0 else i + 1 - p.window;
    LoudIff(p, xs, i);
    LoudIff(p, ys, i);
    if forall j | lo <= j <= i :: xs[j] <= ys[j] {
      SumGrows(xs, ys, lo, i + 1);
    }
    if forall j | lo <= j <= i :: xs[j] == xs[i] {
      EqualLevels(p, xs, i);
    }
  }

  lemma EqualLevels(p: Params, levels: seq<real>, i: nat)
    requires Usable(p) && i < |levels|
    requires forall j | (if i + 1 < p.window then 0 else i + 1 - p.window) <= j <= i :: levels[j] == levels[i]
    ensures Loud(p, levels)[i] <==> levels[i] >= p.threshold
  {
    hide Loud, IsLoud, SumTo;
    var n := if i + 1 < p.window then i + 1 else p.window;
    var sum := SumTo(levels, i + 1) - SumTo(levels, i + 1 - n);
    assert Loud(p, levels)[i] <==> sum >= p.threshold * n as real by { LoudIff(p, levels, i); }
    assert sum == levels[i] * n as real by { SumOfEqual(levels, i + 1 - n, i + 1, levels[i]); }
    Cancels(levels[i], p.threshold, n as real);
  }

  function LoudIn(p: Params, stream: seq<Byte>): seq<bool>
    requires Usable(p)
  {
    Loud(p, Levels(p, stream))
  }

  /** An utterance ends at frame `j`. */
  predicate EndsAt(hangover: nat, loud: seq<bool>, j: nat) {
    hangover <= j < |loud| && loud[j - hangover] && forall i | j - hangover < i <= j :: !loud[i]
  }

  lemma LoudStep(p: Params, levels: seq<real>, x: real)
    requires Usable(p)
    ensures var w := levels[WindowStart(p, |levels|)..] + [x];
            var w' := if |w| > p.window then w[1..] else w;
            && w' == (levels + [x])[WindowStart(p, |levels| + 1)..]
            && Loud(p, levels + [x]) == Loud(p, levels) + [IsLoud(p, w')]
  {
    hide IsLoud;
    var more, n := levels + [x], |levels|;
    var w := levels[WindowStart(p, n)..] + [x];
    var w' := if |w| > p.window then w[1..] else w;
    assert w' == more[WindowStart(p, n + 1)..n + 1];
    forall i | 0 <= i < n ensures Loud(p, more)[i] == Loud(p, levels)[i] {
      assert more[WindowStart(p, i + 1)..i + 1] == levels[WindowStart(p, i + 1)..i + 1];
    }
  }

  // ---------------------------------------------------------------- from loudness to ends

  /** Frames since the last loud one; -1 if there was none. */
  function Since(loud: seq<bool>): (d: int)
    ensures -1 <= d
    ensures d >= 0 ==> d < |loud| && loud[|loud| - 1 - d] && forall i | |loud| - 1 - d < i < |loud| :: !loud[i]
    ensures d == -1 ==> forall i | 0 <= i < |loud| :: !loud[i]
  {
    if loud == [] then -1
    else
      var n := |loud| - 1;
      if loud[n] then 0
      else
        var d := Since(loud[..n]);
        if d == -1 then -1 else d + 1
  }

  lemma SinceStep(loud: seq<bool>, b: bool)
    ensures Since(loud + [b]) == if b then 0 else if Since(loud) == -1 then -1 else Since(loud) + 1
  {
    assert (loud + [b])[..|loud|] == loud;
  }

  /** A quiet frame that completes the hangover is exactly one at which an utterance ends. */
  lemma EndIff(hangover: nat, loud: seq<bool>, b: bool)
    requires hangover > 0
    ensures EndsAt(hangover, loud + [b], |loud|) <==> !b && Since(loud) == hangover - 1
  {
    hide EndsAt, Since;
    if !b && Since(loud) == hangover - 1 {
      EndComes(hangover, loud);
    }
    if EndsAt(hangover, loud + [b], |loud|) {
      EndCame(hangover, loud, b);
    }
  }

  lemma EndComes(hangover: nat, loud: seq<bool>)
    requires hangover > 0 && Since(loud) == hangover - 1
    ensures EndsAt(hangover, loud + [false], |loud|)
  {
    hide Since;
    assert (loud + [false])[|loud| - hangover] == loud[|loud| - hangover];
  }

  lemma EndCame(hangover: nat, loud: seq<bool>, b: bool)
    requires hangover > 0 && EndsAt(hangover, loud + [b], |loud|)
    ensures !b && Since(loud) == hangover - 1
  {
    hide Since;
    var more, k := loud + [b], |loud| - hangover;
    assert !more[|loud|] && loud[k] == more[k];
    forall i | k < i < |loud| ensures !loud[i] {
      assert loud[i] == more[i];
    }
    SinceLast(loud, k);
  }

  lemma {:induction false} SinceLast(loud: seq<bool>, k: nat)
    requires k < |loud| && loud[k] && forall i | k < i < |loud| :: !loud[i]
    ensures Since(loud) == |loud| - 1 - k
    decreases |loud|
  {
    if k < |loud| - 1 {
      SinceLast(loud[..|loud| - 1], k);
    }
  }

  /** The state after all frames with this loudness. */
  function Quiet(hangover: nat, loud: seq<bool>): nat {
    var d := Since(loud);
    if d == -1 then |loud| else if d < hangover then d else d - hangover
  }

  predicate Speaking(hangover: nat, loud: seq<bool>) { 0 <= Since(loud) < hangover }

  /** The detector's state after frames of these levels, with these bytes left over. */
  function After(p: Params, levels: seq<real>, rest: seq<Byte>): State {
    var loud := Loud(p, levels);
    State(rest, levels[WindowStart(p, |levels|)..], Quiet(p.hangover, loud), Speaking(p.hangover, loud))
  }

  /** The state a stream leads to, however it was cut into chunks. */
  function Snapshot(p: Params, stream: seq<Byte>): State
    requires Usable(p)
  {
    After(p, Levels(p, stream), Rest(p.frameBytes, stream))
  }

  // ---------------------------------------------------------------- the detector

  class EnergyVAD {
    const p: Params
    var buffer: seq<Byte>
    var window: seq<real>
    var silentRun: nat
    var hadVoice: bool
    ghost var fed: seq<Byte>

    ghost function Contents(): State
      reads this
    {
      State(buffer, window, silentRun, hadVoice)
    }

    /** The state is the one that the bytes fed so far lead to. */
    ghost predicate Valid()
      reads this
    {
      Usable(p) && Contents() == Snapshot(p, fed)
    }

    /** A frame without a sample would never be used up, and a frame of no time divides by zero. */
    constructor (sampleRate: nat, frameMs: nat, windowMs: nat, hangoverMs: nat, threshold: real, level: seq<Byte> -> real)
      requires frameMs > 0 && sampleRate * frameMs >= 1000
      ensures Valid() && fed == []
      ensures p == Params(sampleRate * frameMs / 1000 * 2, AtLeastOne(windowMs / frameMs),
                          AtLeastOne(hangoverMs / frameMs), threshold, level)
    {
      p := Params(sampleRate * frameMs / 1000 * 2, AtLeastOne(windowMs / frameMs), AtLeastOne(hangoverMs / frameMs),
                  threshold, level);
      buffer, window, silentRun, hadVoice := [], [], 0, false;
      fed := [];
    }

    /** Feeds bytes in a chunk of any size, and reports whether an utterance ended at one of the frames it completes. */
    method Push(pcm: seq<Byte>) returns (ended: bool)
      requires Valid()
      modifies this
      ensures Valid() && fed == old(fed) + pcm
      ensures |buffer| < p.frameBytes
      ensures ended <==> EndsIn(p.hangover, LoudIn(p, fed), |LoudIn(p, old(fed))|)
    {
      hide Loud, EndsIn, Levels, Rest, After;
      ghost var levels := Levels(p, fed);
      ghost var start := |levels|;
      StreamContinues(p, fed, pcm);
      LoudLength(p, levels);
      fed := fed + pcm;
      Rebuffer(p, levels, Rest(p.frameBytes, old(fed)), buffer + pcm);
      buffer := buffer + pcm;
      ended := false;
      NoEndYet(p.hangover, Loud(p, levels));
      while |buffer| >= p.frameBytes
        invariant fed == old(fed) + pcm
        invariant Levels(p, fed) == levels + Levels(p, buffer) && Rest(p.frameBytes, fed) == Rest(p.frameBytes, buffer)
        invariant Contents() == After(p, levels, buffer) && start <= |levels|
        invariant ended <==> EndsIn(p.hangover, Loud(p, levels), start)
        decreases |buffer|
      {
        var frame := buffer[..p.frameBytes];
        ghost var x := p.level(frame);
        LevelsFirst(p, buffer);
        Rebuffer(p, levels, buffer, buffer[p.frameBytes..]);
        buffer := buffer[p.frameBytes..];
        var ends := Hear(frame, levels);
        ended := ended || ends;
        EndsOneOn(p.hangover, Loud(p, levels), Loud(p, levels + [x])[|levels|], start);
        LoudStep(p, levels, x);
        LoudLength(p, levels);
        levels := levels + [x];
      }
      NoLevels(p, buffer);
      assert levels + [] == levels;
    }

    /** Takes one frame into the window and moves the hysteresis on. */
    method Hear(frame: seq<Byte>, ghost levels: seq<real>) returns (ended: bool)
      requires Usable(p) && Contents() == After(p, levels, buffer)
      modifies this`window, this`silentRun, this`hadVoice
      ensures Contents() == After(p, levels + [p.level(frame)], buffer)
      ensures ended <==> EndsAt(p.hangover, Loud(p, levels + [p.level(frame)]), |levels|)
    {
      hide Loud, Since, IsLoud, EndsAt, Quiet, Speaking, WindowStart;
      LoudStep(p, levels, p.level(frame));
      LoudLength(p, levels);
      window := window + [p.level(frame)];
      if |window| > p.window {
        window := window[1..];
      }
      var loud := IsLoud(p, window);
      VoiceStep(p.hangover, Loud(p, levels), loud);
      ended := false;
      if loud {
        hadVoice := true;
        silentRun := 0;
      } else {
        silentRun := silentRun + 1;
        if hadVoice && silentRun >= p.hangover {
          ended := true;
          hadVoice := false;
          silentRun := 0;
        }
      }
    }
  }

  function AtLeastOne(n: int): (r: nat)
    ensures r > 0
  {
    if n < 1 then 1 else n
  }

  /** An utterance ends at frame `from` or later. */
  predicate EndsIn(hangover: nat, loud: seq<bool>, from: nat) {
    exists j :: from <= j < |loud| && EndsAt(hangover, loud, j)
  }

  lemma Rebuffer(p: Params, levels: seq<real>, a: seq<Byte>, b: seq<Byte>)
    ensures After(p, levels, b) == After(p, levels, a).(buffer := b) && After(p, levels, a).buffer == a
  {
  }

  lemma NoEndYet(hangover: nat, loud: seq<bool>)
    ensures !EndsIn(hangover, loud, |loud|)
  {
  }

  lemma LevelsJoin(p: Params, a: seq<seq<Byte>>, b: seq<seq<Byte>>)
    ensures LevelsOf(p, a + b) == LevelsOf(p, a) + LevelsOf(p, b)
  {
  }

  lemma StreamContinues(p: Params, a: seq<Byte>, b: seq<Byte>)
    requires Usable(p)
    ensures Levels(p, a + b) == Levels(p, a) + Levels(p, Rest(p.frameBytes, a) + b)
    ensures Rest(p.frameBytes, a + b) == Rest(p.frameBytes, Rest(p.frameBytes, a) + b)
  {
    FramesAcrossCut(p.frameBytes, a, b);
    LevelsJoin(p, Frames(p.frameBytes, a), Frames(p.frameBytes, Rest(p.frameBytes, a) + b));
  }

  lemma LevelsFirst(p: Params, s: seq<Byte>)
    requires Usable(p) && |s| >= p.frameBytes
    ensures Levels(p, s) == [p.level(s[..p.frameBytes])] + Levels(p, s[p.frameBytes..])
    ensures Rest(p.frameBytes, s) == Rest(p.frameBytes, s[p.frameBytes..])
  {
    var frame := s[..p.frameBytes];
    LevelsJoin(p, [frame], Frames(p.frameBytes, s[p.frameBytes..]));
    assert LevelsOf(p, [frame]) == [p.level(frame)];
  }

  lemma NoLevels(p: Params, s: seq<Byte>)
    requires Usable(p) && |s| < p.frameBytes
    ensures Levels(p, s) == [] && Rest(p.frameBytes, s) == s
  {
  }

  /** One frame on: the hysteresis, and the end of an utterance. */
  lemma VoiceStep(hangover: nat, loud: seq<bool>, b: bool)
    requires hangover > 0
    ensures var more, quiet, voice := loud + [b], Quiet(hangover, loud), Speaking(hangover, loud);
            var ends := !b && voice && quiet + 1 >= hangover;
            && Quiet(hangover, more) == (if b || ends then 0 else quiet + 1)
            && Speaking(hangover, more) == (b || (voice && !ends))
            && (EndsAt(hangover, more, |loud|) <==> ends)
  {
    hide EndsAt, Since;
    SinceStep(loud, b);
    EndIff(hangover, loud, b);
  }

  lemma EndsOneOn(hangover: nat, loud: seq<bool>, b: bool, start: nat)
    requires start <= |loud|
    ensures EndsIn(hangover, loud + [b], start) <==> EndsIn(hangover, loud, start) || EndsAt(hangover, loud + [b], |loud|)
  {
    hide EndsAt;
    EndsGrow(hangover, loud, [b], start);
    var more := loud + [b];
    if EndsIn(hangover, more, start) && !EndsIn(hangover, loud, start) {
      var j :| start <= j < |more| && EndsAt(hangover, more, j);
      assert j == |loud|;
    }
  }

  /** Later frames do not change where utterances ended. */
  lemma EndsGrow(hangover: nat, loud: seq<bool>, more: seq<bool>, start: nat)
    ensures forall j: nat | j < |loud| :: EndsAt(hangover, loud + more, j) <==> EndsAt(hangover, loud, j)
    ensures EndsIn(hangover, loud, start) ==> EndsIn(hangover, loud + more, start)
  {
    forall j: nat | j < |loud| ensures EndsAt(hangover, loud + more, j) <==> EndsAt(hangover, loud, j) {
      assert forall i | 0 <= i <= j :: (loud + more)[i] == loud[i];
    }
    if EndsIn(hangover, loud, start) {
      var j :| start <= j < |loud| && EndsAt(hangover, loud, j);
      assert EndsAt(hangover, loud + more, j);
    }
  }

  // ---------------------------------------------------------------- what this means

  lemma {:induction false} LoudOfPrefix(p: Params, a: seq<real>, b: seq<real>)
    requires Usable(p)
    ensures |Loud(p, a)| <= |Loud(p, a + b)| && Loud(p, a + b)[..|a|] == Loud(p, a)
    decreases |b|
  {
    hide Loud;
    if b == [] {
      assert a + b == a;
      LoudLength(p, a);
    } else {
      var n := |b| - 1;
      LoudOfPrefix(p, a, b[..n]);
      assert a + b == a + b[..n] + [b[n]];
      LoudStep(p, a + b[..n], b[n]);
      LoudLength(p, a);
    }
  }

  lemma LoudLength(p: Params, a: seq<real>)
    ensures |Loud(p, a)| == |a|
  {
  }

  lemma StreamGrows(p: Params, a: seq<Byte>, b: seq<Byte>)
    requires Usable(p)
    ensures |LoudIn(p, a)| <= |LoudIn(p, a + b)| && LoudIn(p, a + b)[..|LoudIn(p, a)|] == LoudIn(p, a)
  {
    hide Loud;
    StreamContinues(p, a, b);
    LoudOfPrefix(p, Levels(p, a), Levels(p, Rest(p.frameBytes, a) + b));
    LoudLength(p, Levels(p, a));
  }

  /** Chunk independence: pushing `a` and then `b` leaves the detector in the state that pushing them at once
      leaves, and reports an end if and only if the single push does. */
  method PushInTwo(one: EnergyVAD, two: EnergyVAD, a: seq<Byte>, b: seq<Byte>)
        returns (whole: bool, first: bool, second: bool)
    requires one != two && one.Valid() && two.Valid() && one.p == two.p && one.fed == two.fed
    modifies one, two
    ensures one.Valid() && two.Valid() && one.Contents() == two.Contents()
    ensures whole <==> first || second
  {
    hide LoudIn, Snapshot, EndsIn;
    ghost var start := one.fed;
    whole := one.Push(a + b);
    first := two.Push(a);
    second := two.Push(b);
    assert start + (a + b) == start + a + b;
    EndsInParts(one.p, start, a, b);
  }

  lemma EndsInParts(p: Params, start: seq<Byte>, a: seq<Byte>, b: seq<Byte>)
    requires Usable(p)
    ensures var h := p.hangover;
            EndsIn(h, LoudIn(p, start + a + b), |LoudIn(p, start)|)
            <==> EndsIn(h, LoudIn(p, start + a), |LoudIn(p, start)|) || EndsIn(h, LoudIn(p, start + a + b),
                |LoudIn(p, start + a)|)
  {
    hide LoudIn, EndsAt;
    var h := p.hangover;
    StreamGrows(p, start, a);
    StreamGrows(p, start + a, b);
    var middle, end := LoudIn(p, start + a), LoudIn(p, start + a + b);
    assert end == middle + end[|middle|..];
    EndsGrow(h, middle, end[|middle|..], |LoudIn(p, start)|);
    if EndsIn(h, end, |LoudIn(p, start)|) {
      var j :| |LoudIn(p, start)| <= j < |end| && EndsAt(h, end, j);
      if j < |middle| {
        assert EndsAt(h, middle, j);
      }
    }
  }

  /** Two ends are more than a hangover apart, with a loud frame between them. */
  lemma EndsAreApart(hangover: nat, loud: seq<bool>, j: nat, k: nat)
    requires hangover > 0 && j < k && EndsAt(hangover, loud, j) && EndsAt(hangover, loud, k)
    ensures j < k - hangover && loud[k - hangover]
  {
    assert loud[k - hangover] && loud[j - hangover];
  }

  /** `k` utterance ends take at least `k` times the hangover and one frame more each, and every one of them is
      announced by a loud frame of its own. */
  lemma {:induction false} EndsTakeFrames(hangover: nat, loud: seq<bool>, ends: seq<nat>)
    requires hangover > 0 && ends != []
    requires forall i | 0 <= i < |ends| :: EndsAt(hangover, loud, ends[i])
    requires forall i, j | 0 <= i < j < |ends| :: ends[i] < ends[j]
    ensures |ends| * (hangover + 1) <= ends[|ends| - 1] + 1 <= |loud|
    decreases |ends|
  {
    hide EndsAt;
    var n := |ends| - 1;
    EndIsInside(hangover, loud, ends[n]);
    if n > 0 {
      EndsTakeFrames(hangover, loud, ends[..n]);
      EndsAreApart(hangover, loud, ends[n - 1], ends[n]);
      OneMoreEnd(n, hangover + 1);
    }
  }

  lemma OneMoreEnd(n: nat, h: nat)
    ensures (n + 1) * h == n * h + h
  {
  }

  lemma EndIsInside(hangover: nat, loud: seq<bool>, j: nat)
    requires EndsAt(hangover, loud, j)
    ensures hangover <= j < |loud|
  {
  }

  // ---------------------------------------------------------------- how many ends are reported

  /** The ends at the frames `lo` to `hi`. */
  function EndCount(hangover: nat, loud: seq<bool>, lo: nat, hi: nat): nat
    requires lo <= hi
  {
    if lo == hi then 0 else EndCount(hangover, loud, lo, hi - 1) + if EndsAt(hangover, loud, hi - 1) then 1 else 0
  }

  lemma {:induction false} EndCountSplits(hangover: nat, loud: seq<bool>, lo: nat, mid: nat, hi: nat)
    requires lo <= mid <= hi
    ensures EndCount(hangover, loud, lo, hi) == EndCount(hangover, loud, lo, mid) + EndCount(hangover, loud, mid, hi)
  {
    if mid < hi {
      EndCountSplits(hangover, loud, lo, mid, hi - 1);
    }
  }

  lemma {:induction false} EndCountOfPrefix(hangover: nat, loud: seq<bool>, more: seq<bool>, lo: nat, hi: nat)
    requires lo <= hi <= |loud|
    ensures EndCount(hangover, loud + more, lo, hi) == EndCount(hangover, loud, lo, hi)
  {
    hide EndsAt;
    if lo < hi {
      EndsGrow(hangover, loud, more, 0);
      EndCountOfPrefix(hangover, loud, more, lo, hi - 1);
    }
  }

  lemma {:induction false} EndCountIsZero(hangover: nat, loud: seq<bool>, lo: nat, hi: nat)
    requires lo <= hi
    ensures EndCount(hangover, loud, lo, hi) == 0 <==> forall j | lo <= j < hi :: !EndsAt(hangover, loud, j)
  {
    hide EndsAt;
    if lo < hi {
      EndCountIsZero(hangover, loud, lo, hi - 1);
    }
  }

  lemma EndsInIffCounted(hangover: nat, loud: seq<bool>, from: nat)
    requires from <= |loud|
    ensures EndsIn(hangover, loud, from) <==> EndCount(hangover, loud, from, |loud|) > 0
  {
    EndCountIsZero(hangover, loud, from, |loud|);
  }

  /** A hangover and one frame more hold one end at most. */
  lemma OneEndInReach(hangover: nat, loud: seq<bool>, lo: nat, hi: nat)
    requires hangover > 0 && lo <= hi <= lo + hangover + 1
    ensures EndCount(hangover, loud, lo, hi) <= 1
    decreases hi - lo
  {
    hide EndsAt;
    if lo < hi {
      OneEndInReach(hangover, loud, lo, hi - 1);
      if EndsAt(hangover, loud, hi - 1) {
        forall j | lo <= j < hi - 1 ensures !EndsAt(hangover, loud, j) {
          if EndsAt(hangover, loud, j) {
            EndsAreApart(hangover, loud, j, hi - 1);
          }
        }
        EndCountIsZero(hangover, loud, lo, hi - 1);
      }
    }
  }

  function Joined(chunks: seq<seq<Byte>>): seq<Byte> {
    if chunks == [] then [] else chunks[0] + Joined(chunks[1..])
  }

  /** The ends that a chunk completes, pushed after these bytes. */
  function EndsInChunk(p: Params, fed: seq<Byte>, chunk: seq<Byte>): nat
    requires Usable(p)
  {
    var lo, hi := |LoudIn(p, fed)|, |LoudIn(p, fed + chunk)|;
    if lo <= hi then EndCount(p.hangover, LoudIn(p, fed + chunk), lo, hi) else 0
  }

  /** The pushes that report an end. */
  function ReportsOf(p: Params, fed: seq<Byte>, chunks: seq<seq<Byte>>): nat
    requires Usable(p)
    decreases |chunks|
  {
    if chunks == [] then 0
    else
      (if EndsIn(p.hangover, LoudIn(p, fed + chunks[0]), |LoudIn(p, fed)|) then 1 else 0)
      + ReportsOf(p, fed + chunks[0], chunks[1..])
  }

  predicate NoChunkMerges(p: Params, fed: seq<Byte>, chunks: seq<seq<Byte>>)
    requires Usable(p)
    decreases |chunks|
  {
    chunks == [] || (EndsInChunk(p, fed, chunks[0]) <= 1 && NoChunkMerges(p, fed + chunks[0], chunks[1..]))
  }

  method PushAll(v: EnergyVAD, chunks: seq<seq<Byte>>) returns (reports: nat)
    requires v.Valid()
    modifies v
    ensures v.Valid() && v.fed == old(v.fed) + Joined(chunks)
    ensures reports == ReportsOf(v.p, old(v.fed), chunks)
  {
    hide LoudIn, EndsIn, Snapshot;
    reports := 0;
    for k := 0 to |chunks|
      invariant v.Valid() && v.fed + Joined(chunks[k..]) == old(v.fed) + Joined(chunks)
      invariant reports + ReportsOf(v.p, v.fed, chunks[k..]) == ReportsOf(v.p, old(v.fed), chunks)
    {
      assert chunks[k..][0] == chunks[k] && chunks[k..][1..] == chunks[k + 1..];
      ghost var before := v.fed;
      var ended := v.Push(chunks[k]);
      assert before + (chunks[k] + Joined(chunks[k + 1..])) == v.fed + Joined(chunks[k + 1..]);
      if ended {
        reports := reports + 1;
      }
    }
    assert chunks[|chunks|..] == [];
  }

  lemma ChunkCounts(p: Params, fed: seq<Byte>, chunk: seq<Byte>)
    requires Usable(p)
    ensures |LoudIn(p, fed)| <= |LoudIn(p, fed + chunk)|
    ensures EndsInChunk(p, fed, chunk) == EndCount(p.hangover, LoudIn(p, fed + chunk), |LoudIn(p, fed)|, |LoudIn(p, fed + chunk)|)
    ensures EndsIn(p.hangover, LoudIn(p, fed + chunk), |LoudIn(p, fed)|) <==> EndsInChunk(p, fed, chunk) > 0
  {
    hide LoudIn, EndsIn, EndCount;
    StreamGrows(p, fed, chunk);
    EndsInIffCounted(p.hangover, LoudIn(p, fed + chunk), |LoudIn(p, fed)|);
  }

  /** The ends that a stream completes are those its first chunk completes and those completed after it. */
  lemma EndsInTurn(p: Params, fed: seq<Byte>, chunk: seq<Byte>, rest: seq<Byte>)
    requires Usable(p)
    ensures EndsInChunk(p, fed, chunk + rest) == EndsInChunk(p, fed, chunk) + EndsInChunk(p, fed + chunk, rest)
  {
    hide LoudIn, EndsAt;
    var h, lo := p.hangover, |LoudIn(p, fed)|;
    assert fed + (chunk + rest) == (fed + chunk) + rest;
    var middle, end := LoudIn(p, fed + chunk), LoudIn(p, fed + chunk + rest);
    StreamGrows(p, fed, chunk);
    StreamGrows(p, fed + chunk, rest);
    assert end == middle + end[|middle|..];
    EndCountOfPrefix(h, middle, end[|middle|..], lo, |middle|);
    EndCountSplits(h, end, lo, |middle|, |end|);
  }

  /** "Once per detected end" holds exactly when no chunk completes two ends: whatever the cutting, there are never
      more reports than ends, and as many if and only if no chunk merges any. */
  lemma {:induction false} ReportsAreEndsIff(p: Params, fed: seq<Byte>, chunks: seq<seq<Byte>>)
    requires Usable(p)
    ensures ReportsOf(p, fed, chunks) <= EndsInChunk(p, fed, Joined(chunks))
    ensures ReportsOf(p, fed, chunks) == EndsInChunk(p, fed, Joined(chunks)) <==> NoChunkMerges(p, fed, chunks)
    decreases |chunks|
  {
    hide LoudIn, EndsIn, EndsInChunk;
    if chunks == [] {
      NothingEnds(p, fed);
    } else {
      ChunkCounts(p, fed, chunks[0]);
      EndsInTurn(p, fed, chunks[0], Joined(chunks[1..]));
      ReportsAreEndsIff(p, fed + chunks[0], chunks[1..]);
    }
  }

  lemma NothingEnds(p: Params, fed: seq<Byte>)
    requires Usable(p)
    ensures EndsInChunk(p, fed, []) == 0
  {
    assert fed + [] == fed;
  }

  // ---------------------------------------------------------------- what a caller can check

  lemma {:induction false} FramesFit(n: nat, s: seq<Byte>, k: nat)
    requires n > 0 && |s| < (k + 1) * n
    ensures |Frames(n, s)| <= k
    decreases |s|
  {
    if |s| >= n {
      assert k > 0;
      assert (k + 1) * n == k * n + n;
      FramesFit(n, s[n..], k - 1);
    }
  }

  /** A chunk of at most a hangover and one frame, in bytes, never merges ends, whatever was fed before it. */
  lemma ShortChunkNeverMerges(p: Params, fed: seq<Byte>, chunk: seq<Byte>)
    requires Usable(p) && |chunk| <= (p.hangover + 1) * p.frameBytes
    ensures EndsInChunk(p, fed, chunk) <= 1
  {
    hide EndsAt, EndCount;
    var n, rest := p.frameBytes, Rest(p.frameBytes, fed);
    assert (p.hangover + 2) * n == (p.hangover + 1) * n + n;
    FramesFit(n, rest + chunk, p.hangover + 1);
    FramesAcrossCut(n, fed, chunk);
    LoudLength(p, Levels(p, fed));
    LoudLength(p, Levels(p, fed + chunk));
    ChunkCounts(p, fed, chunk);
    OneEndInReach(p.hangover, LoudIn(p, fed + chunk), |LoudIn(p, fed)|, |LoudIn(p, fed + chunk)|);
  }

  /** Chunks of that size lose no end. */
  lemma {:induction false} ShortChunksReportEveryEnd(p: Params, fed: seq<Byte>, chunks: seq<seq<Byte>>)
    requires Usable(p) && forall c | c in chunks :: |c| <= (p.hangover + 1) * p.frameBytes
    ensures ReportsOf(p, fed, chunks) == EndsInChunk(p, fed, Joined(chunks))
    decreases |chunks|
  {
    hide EndsInChunk, ReportsOf;
    ShortChunksDoNotMerge(p, fed, chunks);
    ReportsAreEndsIff(p, fed, chunks);
  }

  lemma {:induction false} ShortChunksDoNotMerge(p: Params, fed: seq<Byte>, chunks: seq<seq<Byte>>)
    requires Usable(p) && forall c | c in chunks :: |c| <= (p.hangover + 1) * p.frameBytes
    ensures NoChunkMerges(p, fed, chunks)
    decreases |chunks|
  {
    hide EndsInChunk;
    if chunks != [] {
      assert chunks[0] in chunks && forall c | c in chunks[1..] :: c in chunks;
      ShortChunkNeverMerges(p, fed, chunks[0]);
      ShortChunksDoNotMerge(p, fed + chunks[0], chunks[1..]);
    }
  }

  // ---------------------------------------------------------------- one frame more is too much

  /** A detector whose window is one frame of one sample, with the sample's low byte for its level. */
  function OneFrameWindow(hangover: nat): Params {
    Params(2, 1, hangover, 1.0, (f: seq<Byte>) => if f == [] then 0.0 else f[0] as real)
  }

  /** A stream with the given loudness. */
  function Sound(loud: seq<bool>): seq<Byte> {
    if loud == [] then [] else [if loud[0] then 1 else 0, 0] + Sound(loud[1..])
  }

  lemma {:induction false} SoundLevels(hangover: nat, loud: seq<bool>)
    requires hangover > 0
    ensures |Sound(loud)| == 2 * |loud|
    ensures Levels(OneFrameWindow(hangover), Sound(loud))
                == seq(|loud|, i requires 0 <= i < |loud| => if loud[i] then 1.0 else 0.0)
  {
    if loud != [] {
      var p, s := OneFrameWindow(hangover), Sound(loud);
      SoundLevels(hangover, loud[1..]);
      assert s[..2] == [if loud[0] then 1 else 0, 0] && s[2..] == Sound(loud[1..]);
      LevelsFirst(p, s);
    }
  }

  lemma LoudOfSound(hangover: nat, loud: seq<bool>)
    requires hangover > 0
    ensures LoudIn(OneFrameWindow(hangover), Sound(loud)) == loud
  {
    var p := OneFrameWindow(hangover);
    SoundLevels(hangover, loud);
    var levels := Levels(p, Sound(loud));
    hide Levels;
    forall i | 0 <= i < |loud| ensures IsLoud(p, levels[WindowStart(p, i + 1)..i + 1]) == loud[i] {
      assert levels[i..i + 1] == [levels[i]];
      assert Sum([levels[i]]) == levels[i];
    }
  }

  lemma {:induction false} SoundAppend(a: seq<bool>, b: seq<bool>)
    ensures Sound(a + b) == Sound(a) + Sound(b)
  {
    if a == [] {
      assert a + b == b;
    } else {
      assert (a + b)[1..] == a[1..] + b;
      SoundAppend(a[1..], b);
    }
  }

  /** One loud frame and a quiet hangover, twice; the chunk starts with the last quiet frame of the first. */
  function TwoUtterances(hangover: nat): seq<bool> {
    seq(2 * hangover + 2, i => i == 0 || i == hangover + 1)
  }

  lemma TwoUtterancesEndTwice(hangover: nat)
    requires hangover > 0
    ensures EndCount(hangover, TwoUtterances(hangover), hangover, 2 * hangover + 2) == 2
  {
    var h, loud := hangover, TwoUtterances(hangover);
    assert EndsAt(h, loud, h) && EndsAt(h, loud, 2 * h + 1);
    EndCountSplits(h, loud, h, h + 1, 2 * h + 2);
    EndCountSplits(h, loud, h + 1, 2 * h + 1, 2 * h + 2);
    forall j | h + 1 <= j < 2 * h + 1 ensures !EndsAt(h, loud, j) {
      if EndsAt(h, loud, j) {
        EndsAreApart(h, loud, h, j);
      }
    }
    EndCountIsZero(h, loud, h + 1, 2 * h + 1);
    assert EndCount(h, loud, h, h + 1) == EndCount(h, loud, h, h) + 1;
    assert EndCount(h, loud, 2 * h + 1, 2 * h + 2) == EndCount(h, loud, 2 * h + 1, 2 * h + 1) + 1;
  }

  /** The size is exact: for every hangover, one frame more can complete two ends, and is reported once. With a
      hangover of one frame: loud, quiet, loud, quiet, the last three in one chunk. */
  lemma LongerChunkMerges(hangover: nat) returns (p: Params, fed: seq<Byte>, chunk: seq<Byte>)
    requires hangover > 0
    ensures Usable(p) && p.hangover == hangover && |chunk| == (hangover + 2) * p.frameBytes
    ensures EndsInChunk(p, fed, chunk) == 2 && ReportsOf(p, fed, [chunk]) == 1
  {
    hide LoudIn, EndsIn, EndCount, Sound;
    var h, loud := hangover, TwoUtterances(hangover);
    p, fed, chunk := OneFrameWindow(h), Sound(loud[..h]), Sound(loud[h..]);
    assert loud == loud[..h] + loud[h..];
    SoundAppend(loud[..h], loud[h..]);
    SoundLevels(h, loud[h..]);
    LoudOfSound(h, loud);
    LoudOfSound(h, loud[..h]);
    TwoUtterancesEndTwice(h);
    ChunkCounts(p, fed, chunk);
    assert [chunk][1..] == [];
  }
}
