/**
 * SplitText: a text is cut into words at every space, each word into animated units
 * (its letters, or the whole word), and every unit gets a start delay made of the
 * base delay, a per-word offset and a per-unit stagger.
 */
module SplitText {
  import opened JsString

  datatype Effect = Fade | Slide | Wave | Grow
  datatype Mode = Letters | Words | Both

  // Prop defaults of the component.
  const DefaultEffect: Effect := Wave
  const DefaultDuration: real := 0.62
  const DefaultDelay: real := 0.0
  const DefaultStagger: real := 0.045
  const DefaultMode: Mode := Letters

  /**
   * The units of one word: in words mode the word itself; otherwise its letters,
   * or a single empty placeholder when the word is empty.
   */
  function WordUnits(w: string, mode: Mode): (r: seq<string>)
    ensures |r| >= 1
    ensures Concat(r) == w
    ensures mode == Words ==> |r| == 1
    ensures mode != Words ==> forall i :: 0 <= i < |r| ==> |r[i]| <= 1
    ensures mode == Words ==> r == [w]
    ensures mode != Words && w == "" ==> r == [""]
    ensures mode != Words && w != "" ==> |r| == |w| && forall i :: 0 <= i < |r| ==> r[i] == [w[i]]
  {
    if mode == Words then [w]
    else if |Chars(w)| == 0 then [""]
    else ConcatChars(w); Chars(w)
  }

  /** `splitArr`: the units of every word of `text.split(" ")`, word by word. */
  function SplitArr(text: string, mode: Mode): (r: seq<seq<string>>)
    ensures |r| == |Split(text, ' ')| >= 1
    ensures forall k :: 0 <= k < |r| ==> |r[k]| >= 1 && Concat(r[k]) == Split(text, ' ')[k]
    ensures forall k :: 0 <= k < |r| ==> r[k] == WordUnits(Split(text, ' ')[k], mode)
  {
    var words := Split(text, ' ');
    seq(|words|, k requires 0 <= k < |words| => WordUnits(words[k], mode))
  }

  /**
   * The text the component shows: each word's units one after the other, followed
   * by a space unless the mode is letters or the word is the last one.
   */
  function Rendered(groups: seq<seq<string>>, mode: Mode): string
  {
    if |groups| == 0 then ""
    else Concat(groups[0]) + (if mode != Letters && |groups| > 1 then " " else "") + Rendered(groups[1..], mode)
  }

  /** The per-word delay factor of each effect. */
  function WordFactor(effect: Effect): (f: real)
    ensures 0.04 <= f <= 0.06
  {
    match effect
    case Grow => 0.05
    case Slide => 0.04
    case Wave => 0.06
    case Fade => 0.04
  }

  /**
   * The start delay of unit `index` of word `wordIdx`; `sinIndex` is the value of
   * `Math.sin(index)`, which only the wave effect adds (scaled by 0.04).
   */
  function UnitDelay(effect: Effect, delay: real, stagger: real, wordIdx: nat, index: nat, sinIndex: real): (r: real)
    requires -1.0 <= sinIndex <= 1.0
    ensures effect != Wave ==> r == delay + wordIdx as real * WordFactor(effect) + index as real * stagger
    ensures effect == Wave ==>
      -0.04 <= r - (delay + wordIdx as real * WordFactor(effect) + index as real * stagger) <= 0.04
  {
    match effect
    case Grow => delay + wordIdx as real * 0.05 + index as real * stagger
    case Slide => delay + wordIdx as real * 0.04 + index as real * stagger
    case Wave => delay + wordIdx as real * 0.06 + sinIndex * 0.04 + index as real * stagger
    case Fade => delay + wordIdx as real * 0.04 + index as real * stagger
  }

  /** The duration of each unit: the fade effect (the switch's default branch) runs 10% shorter. */
  function UnitDuration(effect: Effect, duration: real): (r: real)
    ensures duration > 0.0 ==> 0.0 < r <= duration
    ensures r == duration <==> effect != Fade || duration == 0.0
  {
    if effect == Fade then duration * 0.9 else duration
  }

  /** Rendering units whose words are `words` equals joining the words with spaces (or with nothing in letters mode). */
  lemma {:induction false} RenderedJoins(groups: seq<seq<string>>, words: seq<string>, mode: Mode)
    requires |groups| == |words|
    requires forall k :: 0 <= k < |groups| ==> Concat(groups[k]) == words[k]
    ensures mode != Letters ==> Rendered(groups, mode) == Join(words, " ")
    ensures mode == Letters ==> Rendered(groups, mode) == Concat(words)
  {
    if |groups| > 0 {
      RenderedJoins(groups[1..], words[1..], mode);
      if |groups| == 1 {
        assert Rendered(groups[1..], mode) == "";
        assert Concat(words[1..]) == "";
      }
    }
  }

  /** In words and both modes the shown text is exactly the input text. */
  lemma SpacedRoundTrip(text: string, mode: Mode)
    requires mode != Letters
    ensures Rendered(SplitArr(text, mode), mode) == text
  {
    RenderedJoins(SplitArr(text, mode), Split(text, ' '), mode);
    JoinSplit(text, ' ');
  }

  /** In letters mode no space is emitted: the shown text is the input with every space removed. */
  lemma LettersRoundTrip(text: string)
    ensures Rendered(SplitArr(text, Letters), Letters) == Remove(text, ' ')
  {
    RenderedJoins(SplitArr(text, Letters), Split(text, ' '), Letters);
    ConcatSplit(text, ' ');
  }

  /** The empty text is one word with one empty placeholder unit, in every mode. */
  lemma EmptyTextIsOnePlaceholder(mode: Mode)
    ensures SplitArr("", mode) == [[""]]
  {
    assert Split("", ' ') == [""];
  }

  /** Two words of one letter: two single-letter units, the second starting later. */
  lemma TwoWordsInLetters(effect: Effect, delay: real, stagger: real)
    ensures SplitArr("A B", Letters) == [["A"], ["B"]]
    ensures UnitDelay(effect, delay, stagger, 0, 0, 0.0) < UnitDelay(effect, delay, stagger, 1, 0, 0.0)
  {
    var e := Split("", ' ');
    assert e == [""] && e[1..] == [];
    assert "B"[1..] == "" && "B"[0] == 'B' && ['B'] + e[0] == "B";
    assert Split("B", ' ') == ["B"];
    assert " B"[1..] == "B";
    var b := Split(" B", ' ');
    assert b == ["", "B"] && b[1..] == ["B"];
    assert "A B"[1..] == " B" && "A B"[0] == 'A' && ['A'] + b[0] == "A";
    assert Split("A B", ' ') == ["A", "B"];
    assert Chars("A") == ["A"];
    assert Chars("B") == ["B"];
  }

  /** For grow, slide and fade with a positive stagger, delays grow with the unit index inside a word. */
  lemma DelayIncreasesWithIndex(effect: Effect, delay: real, stagger: real, wordIdx: nat, i: nat, j: nat)
    requires effect != Wave && stagger > 0.0 && i < j
    ensures UnitDelay(effect, delay, stagger, wordIdx, i, 0.0) < UnitDelay(effect, delay, stagger, wordIdx, j, 0.0)
  {
    assert i as real * stagger < j as real * stagger;
  }

  /** For grow, slide and fade, delays grow with the word index at a fixed unit index. */
  lemma DelayIncreasesWithWord(effect: Effect, delay: real, stagger: real, u: nat, v: nat, index: nat)
    requires effect != Wave && u < v
    ensures UnitDelay(effect, delay, stagger, u, index, 0.0) < UnitDelay(effect, delay, stagger, v, index, 0.0)
  {
    assert u as real * WordFactor(effect) < v as real * WordFactor(effect);
  }

  /**
   * Delays are not monotone across a word boundary: a late letter of one word starts
   * after the first letter of the next word once `index * stagger` exceeds the word factor.
   */
  lemma DelayDropsAtWordBoundary(effect: Effect, delay: real, stagger: real, wordIdx: nat, index: nat)
    requires effect != Wave && index as real * stagger > WordFactor(effect)
    ensures UnitDelay(effect, delay, stagger, wordIdx + 1, 0, 0.0) < UnitDelay(effect, delay, stagger, wordIdx, index, 0.0)
  {
  }

  /** With the default stagger 0.045 the drop happens at the latest at the third letter (index 2) of a word. */
  lemma DefaultStaggerDropsByThirdLetter(effect: Effect, wordIdx: nat)
    requires effect != Wave
    ensures UnitDelay(effect, DefaultDelay, DefaultStagger, wordIdx + 1, 0, 0.0)
          < UnitDelay(effect, DefaultDelay, DefaultStagger, wordIdx, 2, 0.0)
  {
    DelayDropsAtWordBoundary(effect, DefaultDelay, DefaultStagger, wordIdx, 2);
  }
}
