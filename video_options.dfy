/**
  The video options screen's two option pointers: a resolution pointer over five resolutions and
  a difficulty pointer over three levels. The left and right buttons step them with wrap-around;
  the settings model can also set them directly.
*/
module VideoOptions {
  import opened Optional
  import opened Events

  const ResolutionX: seq<int> := [1920, 1024, 1280, 1280, 1600]
  const ResolutionY: seq<int> := [1080, 768, 720, 960, 1200]
  const Difficulties: seq<string> := ["Easy", "Medium", "Hard"]

  /** The last index of each option list. */
  const LastResolution: nat := 4
  const LastDifficulty: nat := 2

  /** The right button: one step forward, and from the last index (or beyond it) back to 0. */
  function StepRight(p: int, last: nat): (r: int)
    ensures r <= last
    ensures p >= -1 ==> 0 <= r
    ensures r == 0 <==> (p >= last || p == -1)
  {
    if p < last then p + 1 else 0
  }

  /** The left button: one step back, and from 0 (or below it) round to the last index. */
  function StepLeft(p: int, last: nat): (r: int)
    ensures 0 <= r
    ensures p <= last + 1 ==> r <= last
    ensures r == last <==> (p <= 0 || p == last + 1)
  {
    if p > 0 then p - 1 else last
  }

  /** On a valid pointer both buttons stay valid, and they are the cyclic successor and predecessor. */
  lemma StepsAreCyclic(p: int, last: nat)
    requires 0 <= p <= last
    ensures 0 <= StepRight(p, last) <= last && StepRight(p, last) == (p + 1) % (last + 1)
    ensures 0 <= StepLeft(p, last) <= last && StepLeft(p, last) == (p + last) % (last + 1)
  {
  }

  /** Left undoes right and right undoes left, on every valid pointer. */
  lemma LeftRightInverse(p: int, last: nat)
    requires 0 <= p <= last
    ensures StepLeft(StepRight(p, last), last) == p
    ensures StepRight(StepLeft(p, last), last) == p
  {
  }

  /** `k` presses of the right button. */
  function RightPresses(p: int, last: nat, k: nat): int {
    if k == 0 then p else StepRight(RightPresses(p, last, k - 1), last)
  }

  /** `k` presses of the left button. */
  function LeftPresses(p: int, last: nat, k: nat): int {
    if k == 0 then p else StepLeft(LeftPresses(p, last, k - 1), last)
  }

  /** Right presses that do not reach past the last index just count up. */
  lemma {:induction false} RightPressesCountUp(p: int, last: nat, k: nat)
    requires 0 <= p && p + k <= last
    ensures RightPresses(p, last, k) == p + k
  {
    if k > 0 {
      RightPressesCountUp(p, last, k - 1);
    }
  }

  /** Left presses that do not reach below 0 just count down. */
  lemma {:induction false} LeftPressesCountDown(p: int, last: nat, k: nat)
    requires k <= p <= last
    ensures LeftPresses(p, last, k) == p - k
  {
    if k > 0 {
      LeftPressesCountDown(p, last, k - 1);
    }
  }

  /** Presses compose: `a` presses followed by `b` presses are `a + b` presses. */
  lemma {:induction false} RightPressesCompose(p: int, last: nat, a: nat, b: nat)
    ensures RightPresses(RightPresses(p, last, a), last, b) == RightPresses(p, last, a + b)
  {
    if b > 0 {
      RightPressesCompose(p, last, a, b - 1);
    }
  }

  lemma {:induction false} LeftPressesCompose(p: int, last: nat, a: nat, b: nat)
    ensures LeftPresses(LeftPresses(p, last, a), last, b) == LeftPresses(p, last, a + b)
  {
    if b > 0 {
      LeftPressesCompose(p, last, a, b - 1);
    }
  }

  /** As many presses as there are options, in either direction, bring the pointer back. */
  lemma FullTurnRestores(p: int, last: nat)
    requires 0 <= p <= last
    ensures RightPresses(p, last, last + 1) == p
    ensures LeftPresses(p, last, last + 1) == p
  {
    // Right: up to the last index, wrap to 0, then up to p again.
    RightPressesCountUp(p, last, last - p);
    assert RightPresses(p, last, last - p + 1) == 0;
    RightPressesCountUp(0, last, p);
    RightPressesCompose(p, last, last - p + 1, p);
    // Left: down to 0, wrap to the last index, then down to p again.
    LeftPressesCountDown(p, last, p);
    assert LeftPresses(p, last, p + 1) == last;
    LeftPressesCountDown(last, last, last - p);
    LeftPressesCompose(p, last, p + 1, last - p);
  }

  /** Five presses for the resolution, three for the difficulty. */
  lemma FivePressesRestoreResolution(p: int)
    requires 0 <= p <= LastResolution
    ensures RightPresses(p, LastResolution, 5) == p && LeftPresses(p, LastResolution, 5) == p
  {
    FullTurnRestores(p, LastResolution);
  }

  /** The decimal text of a natural number, as C# prints an `int`. */
  function DecimalString(n: nat): (s: string)
    ensures |s| >= 1
    ensures forall i :: 0 <= i < |s| ==> '0' <= s[i] <= '9'
  {
    if n < 10 then [DigitChar(n)] else DecimalString(n / 10) + [DigitChar(n % 10)]
  }

  function DigitChar(d: nat): (c: char)
    requires d < 10
    ensures '0' <= c <= '9'
  {
    ('0' as int + d) as char
  }

  /** `resolutionX[p] + " x " + resolutionY[p]`. */
  function ResolutionLabel(p: nat): string
    requires p <= LastResolution
  {
    DecimalString(ResolutionX[p]) + " x " + DecimalString(ResolutionY[p])
  }

  /** The five labels the screen can show, in pointer order. */
  const ResolutionTexts: seq<string> :=
    ["1920 x 1080", "1024 x 768", "1280 x 720", "1280 x 960", "1600 x 1200"]

  lemma ResolutionLabels(p: nat)
    requires p <= LastResolution
    ensures ResolutionLabel(p) == ResolutionTexts[p]
  {
    if p == 0 { ResolutionLabel0(); }
    else if p == 1 { ResolutionLabel1(); }
    else if p == 2 { ResolutionLabel2(); }
    else if p == 3 { ResolutionLabel3(); }
    else { ResolutionLabel4(); }
  }

  lemma ResolutionLabel0()
    ensures ResolutionLabel(0) == "1920 x 1080"
  {
    Decimal1920(); Decimal1080();
    assert ResolutionX[0] == 1920 && ResolutionY[0] == 1080;
  }

  lemma ResolutionLabel1()
    ensures ResolutionLabel(1) == "1024 x 768"
  {
    Decimal1024(); Decimal768();
    assert ResolutionX[1] == 1024 && ResolutionY[1] == 768;
  }

  lemma ResolutionLabel2()
    ensures ResolutionLabel(2) == "1280 x 720"
  {
    Decimal1280(); Decimal720();
    assert ResolutionX[2] == 1280 && ResolutionY[2] == 720;
  }

  lemma ResolutionLabel3()
    ensures ResolutionLabel(3) == "1280 x 960"
  {
    Decimal1280(); Decimal960();
    assert ResolutionX[3] == 1280 && ResolutionY[3] == 960;
  }

  lemma ResolutionLabel4()
    ensures ResolutionLabel(4) == "1600 x 1200"
  {
    Decimal1600(); Decimal1200();
    assert ResolutionX[4] == 1600 && ResolutionY[4] == 1200;
  }

  lemma Decimal1920()
    ensures DecimalString(1920) == "1920"
  {
    assert DecimalString(1) == "1";
    DecimalAppend(1, 9);
    assert DecimalString(19) == "1" + "9";
    DecimalAppend(19, 2);
    assert DecimalString(192) == "19" + "2";
    DecimalAppend(192, 0);
    assert DecimalString(1920) == "192" + "0";
  }

  lemma Decimal1080()
    ensures DecimalString(1080) == "1080"
  {
    assert DecimalString(1) == "1";
    DecimalAppend(1, 0);
    assert DecimalString(10) == "1" + "0";
    DecimalAppend(10, 8);
    assert DecimalString(108) == "10" + "8";
    DecimalAppend(108, 0);
    assert DecimalString(1080) == "108" + "0";
  }

  lemma Decimal1024()
    ensures DecimalString(1024) == "1024"
  {
    assert DecimalString(1) == "1";
    DecimalAppend(1, 0);
    assert DecimalString(10) == "1" + "0";
    DecimalAppend(10, 2);
    assert DecimalString(102) == "10" + "2";
    DecimalAppend(102, 4);
    assert DecimalString(1024) == "102" + "4";
  }

  lemma Decimal768()
    ensures DecimalString(768) == "768"
  {
    assert DecimalString(7) == "7";
    DecimalAppend(7, 6);
    assert DecimalString(76) == "7" + "6";
    DecimalAppend(76, 8);
    assert DecimalString(768) == "76" + "8";
  }

  lemma Decimal1280()
    ensures DecimalString(1280) == "1280"
  {
    assert DecimalString(1) == "1";
    DecimalAppend(1, 2);
    assert DecimalString(12) == "1" + "2";
    DecimalAppend(12, 8);
    assert DecimalString(128) == "12" + "8";
    DecimalAppend(128, 0);
    assert DecimalString(1280) == "128" + "0";
  }

  lemma Decimal720()
    ensures DecimalString(720) == "720"
  {
    assert DecimalString(7) == "7";
    DecimalAppend(7, 2);
    assert DecimalString(72) == "7" + "2";
    DecimalAppend(72, 0);
    assert DecimalString(720) == "72" + "0";
  }

  lemma Decimal960()
    ensures DecimalString(960) == "960"
  {
    assert DecimalString(9) == "9";
    DecimalAppend(9, 6);
    assert DecimalString(96) == "9" + "6";
    DecimalAppend(96, 0);
    assert DecimalString(960) == "96" + "0";
  }

  lemma Decimal1600()
    ensures DecimalString(1600) == "1600"
  {
    assert DecimalString(1) == "1";
    DecimalAppend(1, 6);
    assert DecimalString(16) == "1" + "6";
    DecimalAppend(16, 0);
    assert DecimalString(160) == "16" + "0";
    DecimalAppend(160, 0);
    assert DecimalString(1600) == "160" + "0";
  }

  lemma Decimal1200()
    ensures DecimalString(1200) == "1200"
  {
    assert DecimalString(1) == "1";
    DecimalAppend(1, 2);
    assert DecimalString(12) == "1" + "2";
    DecimalAppend(12, 0);
    assert DecimalString(120) == "12" + "0";
    DecimalAppend(120, 0);
    assert DecimalString(1200) == "120" + "0";
  }

  /** One more decimal digit at the end of a number is one more character at the end of its text. */
  lemma DecimalAppend(n: nat, d: nat)
    requires 1 <= n && d < 10
    ensures DecimalString(10 * n + d) == DecimalString(n) + [DigitChar(d)]
  {
    assert (10 * n + d) / 10 == n && (10 * n + d) % 10 == d;
  }

  /** Two pointers name the same label only when they name the same resolution. */
  lemma ResolutionLabelsDistinct(p: nat, q: nat)
    requires p <= LastResolution && q <= LastResolution && p != q
    ensures ResolutionLabel(p) != ResolutionLabel(q)
  {
    ResolutionLabels(p);
    ResolutionLabels(q);
    ResolutionTextsDistinct(p, q);
  }

  lemma ResolutionTextsDistinct(p: nat, q: nat)
    requires p <= LastResolution && q <= LastResolution && p != q
    ensures ResolutionTexts[p] != ResolutionTexts[q]
  {
    var lp, lq := ResolutionTexts[p], ResolutionTexts[q];
    assert lp[1] != lq[1] || lp[7] != lq[7];
  }

  class VideoOptionsScreens {
    var pointer: int
    var pointerDiff: int
    var resolutionLabel: string
    var difficultyLabel: string
    /** The last `Screen.SetResolution(width, height, fullscreen: true)` call. */
    var appliedResolution: Option<(int, int)>
    var published: seq<Event>

    /** Both pointers index their option lists. */
    ghost predicate Valid() reads this {
      0 <= pointer <= LastResolution && 0 <= pointerDiff <= LastDifficulty
    }

    /** The screen starts with both pointers at 0 and announces that the settings UI exists. */
    constructor ()
      ensures Valid() && pointer == 0 && pointerDiff == 0
      ensures appliedResolution == None && published == [SettingsInitialized]
    {
      pointer, pointerDiff := 0, 0;
      resolutionLabel, difficultyLabel := "", "";
      appliedResolution := None;
      published := [SettingsInitialized];
    }

    /**
      RightSwitchResolutionChangeHandler. From a valid pointer it always succeeds; from a pointer the
      settings model set below -1 the array access after the step throws (`ok` false) and only the
      pointer has changed.
    */
    method RightSwitchResolution() returns (ok: bool)
      modifies this`pointer, this`resolutionLabel, this`appliedResolution, this`published
      ensures pointer == StepRight(old(pointer), LastResolution)
      ensures ok <==> 0 <= pointer <= LastResolution
      ensures old(Valid()) ==> Valid() && ok
      ensures ok ==> ShowsResolution(old(published))
      ensures !ok ==> Untouched(old(resolutionLabel), old(appliedResolution), old(published))
    {
      if pointer < LastResolution { pointer := pointer + 1; } else { pointer := 0; }
      ok := ApplyResolution();
    }

    /** LeftSwitchResolutionChangeHandler; a pointer above the last index steps down and may throw. */
    method LeftSwitchResolution() returns (ok: bool)
      modifies this`pointer, this`resolutionLabel, this`appliedResolution, this`published
      ensures pointer == StepLeft(old(pointer), LastResolution)
      ensures ok <==> 0 <= pointer <= LastResolution
      ensures old(Valid()) ==> Valid() && ok
      ensures ok ==> ShowsResolution(old(published))
      ensures !ok ==> Untouched(old(resolutionLabel), old(appliedResolution), old(published))
    {
      if pointer > 0 { pointer := pointer - 1; } else { pointer := LastResolution; }
      ok := ApplyResolution();
    }

    /** After a successful resolution step: the resolution is applied, labelled and announced. */
    ghost predicate ShowsResolution(published0: seq<Event>)
      reads this
    {
      && 0 <= pointer <= LastResolution
      && appliedResolution == Some((ResolutionX[pointer], ResolutionY[pointer]))
      && resolutionLabel == ResolutionLabel(pointer)
      && published == published0 + [ResolutionChanged(pointer)]
    }

    ghost predicate Untouched(label0: string, applied0: Option<(int, int)>, published0: seq<Event>)
      reads this
    {
      resolutionLabel == label0 && appliedResolution == applied0 && published == published0
    }

    /** The part both resolution buttons share: apply, label and announce the pointer's resolution. */
    method ApplyResolution() returns (ok: bool)
      modifies this`resolutionLabel, this`appliedResolution, this`published
      ensures ok <==> 0 <= pointer <= LastResolution
      ensures ok ==> ShowsResolution(old(published))
      ensures !ok ==> Untouched(old(resolutionLabel), old(appliedResolution), old(published))
    {
      if !(0 <= pointer <= LastResolution) {
        return false;
      }
      appliedResolution := Some((ResolutionX[pointer], ResolutionY[pointer]));
      resolutionLabel := ResolutionLabel(pointer);
      published := published + [ResolutionChanged(pointer)];
      ok := true;
    }

    /** RightSwitchAiDiffChangeHandler. */
    method RightSwitchDifficulty() returns (ok: bool)
      modifies this`pointerDiff, this`difficultyLabel, this`published
      ensures pointerDiff == StepRight(old(pointerDiff), LastDifficulty)
      ensures ok <==> 0 <= pointerDiff <= LastDifficulty
      ensures old(Valid()) ==> Valid() && ok
      ensures ok ==> difficultyLabel == Difficulties[pointerDiff] && published == old(published) + [DifficultyChanged(pointerDiff)]
      ensures !ok ==> difficultyLabel == old(difficultyLabel) && published == old(published)
    {
      if pointerDiff < LastDifficulty { pointerDiff := pointerDiff + 1; } else { pointerDiff := 0; }
      ok := ShowDifficulty();
    }

    /** LeftSwitchAiDiffChangeHandler. */
    method LeftSwitchDifficulty() returns (ok: bool)
      modifies this`pointerDiff, this`difficultyLabel, this`published
      ensures pointerDiff == StepLeft(old(pointerDiff), LastDifficulty)
      ensures ok <==> 0 <= pointerDiff <= LastDifficulty
      ensures old(Valid()) ==> Valid() && ok
      ensures ok ==> difficultyLabel == Difficulties[pointerDiff] && published == old(published) + [DifficultyChanged(pointerDiff)]
      ensures !ok ==> difficultyLabel == old(difficultyLabel) && published == old(published)
    {
      if pointerDiff > 0 { pointerDiff := pointerDiff - 1; } else { pointerDiff := LastDifficulty; }
      ok := ShowDifficulty();
    }

    method ShowDifficulty() returns (ok: bool)
      modifies this`difficultyLabel, this`published
      ensures ok <==> 0 <= pointerDiff <= LastDifficulty
      ensures ok ==> difficultyLabel == Difficulties[pointerDiff] && published == old(published) + [DifficultyChanged(pointerDiff)]
      ensures !ok ==> difficultyLabel == old(difficultyLabel) && published == old(published)
    {
      if !(0 <= pointerDiff <= LastDifficulty) {
        return false;
      }
      difficultyLabel := Difficulties[pointerDiff];
      published := published + [DifficultyChanged(pointerDiff)];
      ok := true;
    }

    /**
      ResolutionSetHandler: the settings model's index is adopted unchecked; an index outside the
      table then throws on the label's array access (`ok` false), leaving the pointer out of range.
    */
    method ResolutionSet(index: int) returns (ok: bool)
      modifies this`pointer, this`resolutionLabel
      ensures pointer == index
      ensures ok <==> 0 <= index <= LastResolution
      ensures resolutionLabel == if ok then ResolutionLabel(index) else old(resolutionLabel)
    {
      pointer := index;
      if !(0 <= pointer <= LastResolution) {
        return false;
      }
      resolutionLabel := ResolutionLabel(pointer);
      ok := true;
    }

    /** DifficultiSetHandler: the same for the difficulty pointer and its label. */
    method DifficultySet(index: int) returns (ok: bool)
      modifies this`pointerDiff, this`difficultyLabel
      ensures pointerDiff == index
      ensures ok <==> 0 <= index <= LastDifficulty
      ensures difficultyLabel == if ok then Difficulties[index] else old(difficultyLabel)
    {
      pointerDiff := index;
      if !(0 <= pointerDiff <= LastDifficulty) {
        return false;
      }
      difficultyLabel := Difficulties[pointerDiff];
      ok := true;
    }
  }
}
