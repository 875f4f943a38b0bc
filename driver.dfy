/**
 * The filter state around ff_adm_process (ADMData): ff_adm_init records the
 * frame size and allocates data_buf, temp_lo and temp_hi; do_adm scores each
 * (main, ref) pair and keeps the running nb_frames and adm_sum; ff_adm_uninit
 * returns their mean.
 */
module AdmDriver {
  import opened AdmArith
  import opened AdmLayout
  import opened AdmPipeline

  datatype Option<T> = None | Some(value: T)

  /** AVERROR(ENOMEM). */
  const ErrNoMem: int := -12

  /** The sum of the scores of the frames so far, in order. */
  function Sum(xs: seq<real>): real {
    if |xs| == 0 then 0.0 else Sum(xs[..|xs| - 1]) + xs[|xs| - 1]
  }

  /** `nb_frames > 0 ? adm_sum / nb_frames : 0.0` over the scores so far. */
  function Mean(xs: seq<real>): real {
    if |xs| > 0 then Sum(xs) / |xs| as real else 0.0
  }

  /** Adding a frame adds its score to the running sum. */
  lemma SumAppend(xs: seq<real>, x: real)
    ensures Sum(xs + [x]) == Sum(xs) + x
  {
    assert (xs + [x])[..|xs|] == xs;
  }

  /** Scores in [lo, hi] sum to a value in [n * lo, n * hi]. */
  lemma {:induction false} SumBounds(xs: seq<real>, lo: real, hi: real)
    requires forall i :: 0 <= i < |xs| ==> lo <= xs[i] <= hi
    ensures (|xs| as real) * lo <= Sum(xs) <= (|xs| as real) * hi
  {
    if |xs| > 0 {
      SumBounds(xs[..|xs| - 1], lo, hi);
    }
  }

  /** The mean of scores that all lie in [lo, hi] lies in [lo, hi]. */
  lemma MeanBounds(xs: seq<real>, lo: real, hi: real)
    requires |xs| > 0 && forall i :: 0 <= i < |xs| ==> lo <= xs[i] <= hi
    ensures lo <= Mean(xs) <= hi
  {
    SumBounds(xs, lo, hi);
    assert Mean(xs) * |xs| as real == Sum(xs);
  }

  class AdmData {
    var width: nat
    var height: nat
    /** s->desc->comp[0].depth > 8: the transforms of scale 0 read uint16 samples. */
    var wide: bool
    var dataBuf: array?<Int16>
    var tempLo: array?<Int16>
    var tempHi: array?<Int16>
    var nbFrames: nat
    var admSum: real
    /** The scores of the frames processed so far. */
    ghost var history: seq<real>

    /** nb_frames counts the scores so far and adm_sum is their sum. */
    ghost predicate Valid()
      reads this
    {
      nbFrames == |history| && admSum == Sum(history)
    }

    /** The buffers ff_adm_process works in are allocated at their sizes, for a frame of at least 2 x 2. */
    ghost predicate Ready()
      reads this
    {
      && dataBuf != null && tempLo != null && tempHi != null
      && ArenaShape(width, height, dataBuf.Length)
      && tempLo.Length == TempLen(width) && tempHi.Length == TempLen(width)
      && dataBuf != tempLo && dataBuf != tempHi && tempLo != tempHi
    }

    /** The zeroed private context of the filter. */
    constructor ()
      ensures width == 0 && height == 0 && !wide
      ensures dataBuf == null && tempLo == null && tempHi == null
      ensures nbFrames == 0 && admSum == 0.0 && history == []
      ensures Valid()
    {
      width, height, wide := 0, 0, false;
      dataBuf, tempLo, tempHi := null, null, null;
      nbFrames, admSum := 0, 0.0;
      history := [];
    }

    /**
     * ff_adm_init for a w x h input of the given bit depth.  dataOk, loOk and
     * hiOk say whether each av_malloc succeeds; the first failure ends the
     * allocations with AVERROR(ENOMEM).
     */
    method Init(w: nat, h: nat, depth: nat, dataOk: bool, loOk: bool, hiOk: bool) returns (err: int)
      modifies this
      ensures width == w && height == h && wide == (depth > 8)
      ensures err == (if dataOk && loOk && hiOk then 0 else ErrNoMem)
      ensures dataOk ==> fresh(dataBuf) && dataBuf.Length == ArenaLen(w, h)
      ensures !dataOk ==> dataBuf == null && tempLo == old(tempLo) && tempHi == old(tempHi)
      ensures dataOk && loOk ==> fresh(tempLo) && tempLo.Length == TempLen(w)
      ensures dataOk && !loOk ==> tempLo == null && tempHi == old(tempHi)
      ensures dataOk && loOk && hiOk ==> fresh(tempHi) && tempHi.Length == TempLen(w)
      ensures dataOk && loOk && !hiOk ==> tempHi == null
      ensures err == 0 && w >= 2 && h >= 2 ==> Ready()
      ensures nbFrames == old(nbFrames) && admSum == old(admSum) && history == old(history)
    {
      width, height := w, h;
      wide := depth > 8;
      if !dataOk {
        dataBuf := null;
        return ErrNoMem;
      }
      dataBuf := new Int16[ArenaLen(w, h)];
      if !loOk {
        tempLo := null;
        return ErrNoMem;
      }
      tempLo := new Int16[TempLen(w)];
      if !hiOk {
        tempHi := null;
        return ErrNoMem;
      }
      tempHi := new Int16[TempLen(w)];
      err := 0;
    }

    /**
     * The frame event of do_adm: a missing ref passes main through unscored;
     * otherwise ff_adm_process scores the pair, and nb_frames and adm_sum take the score in.
     */
    method DoAdm(ref: Option<Frame>, main: Frame) returns (score: Option<real>)
      requires Valid() && Ready()
      requires ref.Some? ==> FramesFit(ref.value, main, wide, width, height)
      modifies this, dataBuf, tempLo, tempHi
      ensures Valid() && Ready()
      ensures width == old(width) && height == old(height) && wide == old(wide)
      ensures dataBuf == old(dataBuf) && tempLo == old(tempLo) && tempHi == old(tempHi)
      ensures ref.None? ==> && score.None? && history == old(history)
                            && dataBuf[..] == old(dataBuf[..]) && tempLo[..] == old(tempLo[..]) && tempHi[..] == old(tempHi[..])
      ensures ref.Some? ==> && score.Some?
                            && score.value == FrameScore(old(dataBuf[..]), ref.value, main, wide, width, height)
                            && history == old(history) + [score.value]
                            && dataBuf[..] == ArenaAt(old(dataBuf[..]), ref.value, main, wide, width, height, Scales)
                            && tempLo[width..] == old(tempLo[width..]) && tempHi[width..] == old(tempHi[width..])
    {
      if ref.None? {
        return None;
      }
      var s := ScoreRef(ref.value, main);
      score := Some(s);
    }

    /** do_adm with a ref frame: ff_adm_process scores the pair, then nb_frames and adm_sum take the score in. */
    method ScoreRef(ref: Frame, main: Frame) returns (s: real)
      requires Valid() && Ready() && FramesFit(ref, main, wide, width, height)
      modifies this, dataBuf, tempLo, tempHi
      ensures Valid() && Ready()
      ensures width == old(width) && height == old(height) && wide == old(wide)
      ensures dataBuf == old(dataBuf) && tempLo == old(tempLo) && tempHi == old(tempHi)
      ensures s == FrameScore(old(dataBuf[..]), ref, main, wide, width, height)
      ensures history == old(history) + [s]
      ensures dataBuf[..] == ArenaAt(old(dataBuf[..]), ref, main, wide, width, height, Scales)
      ensures tempLo[width..] == old(tempLo[width..]) && tempHi[width..] == old(tempHi[width..])
    {
      s := Score(ref, main, width, height, wide);
      Account(s);
    }

    /** ff_adm_process on the state's buffers, given the state's width, height and bit depth: the score, and data_buf after the four scales. */
    method Score(ref: Frame, main: Frame, w: nat, h: nat, wd: bool) returns (s: real)
      requires Ready() && w == width && h == height && wd == wide && FramesFit(ref, main, wd, w, h)
      modifies dataBuf, tempLo, tempHi
      ensures s == FrameScore(old(dataBuf[..]), ref, main, wd, w, h)
      ensures dataBuf[..] == ArenaAt(old(dataBuf[..]), ref, main, wd, w, h, Scales)
      ensures tempLo[w..] == old(tempLo[w..]) && tempHi[w..] == old(tempHi[w..])
    {
      s := ScoreFrame(dataBuf, tempLo, tempHi, w, h, wd, ref, main);
    }

    /** `s->nb_frames++; s->adm_sum += score;` */
    method Account(s: real)
      requires Valid()
      modifies this
      ensures Valid() && history == old(history) + [s]
      ensures width == old(width) && height == old(height) && wide == old(wide)
      ensures dataBuf == old(dataBuf) && tempLo == old(tempLo) && tempHi == old(tempHi)
    {
      SumAppend(history, s);
      nbFrames := nbFrames + 1;
      admSum := admSum + s;
      history := history + [s];
    }

    /** ff_adm_uninit's result: the mean score of the frames so far, or 0.0 before the first. */
    method Uninit() returns (r: real)
      requires Valid()
      ensures r == Mean(history)
    {
      r := if nbFrames > 0 then admSum / nbFrames as real else 0.0;
    }
  }
}
