/**
 * The home page's typewriter heading: on every tick it types one more character of the current
 * title, holds the full title, deletes it one character at a time, then moves to the next title.
 * Timers are ticks here; the two-second hold before deleting is folded into the tick that sees
 * the full title.
 */
module Typewriter {

  const Titles: seq<string> := [
    "Systems Developer",
    "Data Enthusiast",
    "Digital Architect",
    "Code Warrior",
    "Tech Innovator"
  ]

  const TypingDelay := 100

  const DeletingDelay := 50

  /** The three state variables the effect reads and writes. */
  datatype TypeState = TypeState(typed: string, index: int, deleting: bool)

  /** `t.substring(0, end)`: the end is clamped into the string. */
  function Substring(t: string, end: int): (r: string)
    ensures |r| == if end < 0 then 0 else if end > |t| then |t| else end
    ensures r <= t
  {
    t[..if end < 0 then 0 else if end > |t| then |t| else end]
  }

  /** The title currently shown, at an index in range. */
  predicate InRange(s: TypeState) {
    0 <= s.index < |Titles|
  }

  /** The invariant: the index is in range and the typed text is a prefix of its title. */
  predicate Good(s: TypeState) {
    InRange(s) && s.typed <= Titles[s.index]
  }

  /** One run of `type`, its four branches in order. */
  function Step(s: TypeState): (r: TypeState)
    requires InRange(s)
    ensures InRange(r)
  {
    var title := Titles[s.index];
    if !s.deleting && s.typed != title then
      s.(typed := Substring(title, |s.typed| + 1))
    else if s.deleting && s.typed != "" then
      s.(typed := Substring(title, |s.typed| - 1))
    else if !s.deleting && s.typed == title then
      s.(deleting := true)
    else
      s.(deleting := false, index := (s.index + 1) % |Titles|)
  }

  /** The delay before the next tick: faster while deleting. */
  function Delay(s: TypeState): (ms: nat)
    ensures s.deleting ==> ms == DeletingDelay
    ensures !s.deleting ==> ms == TypingDelay
  {
    if s.deleting then DeletingDelay else TypingDelay
  }

  /** Every tick keeps the typed text a prefix of the title it belongs to. */
  lemma StepKeepsGood(s: TypeState)
    requires Good(s)
    ensures Good(Step(s))
  {
    var title := Titles[s.index];
    if s.deleting && s.typed == "" {
      assert Step(s).typed == "";
    }
  }

  /**
   * A typing tick adds exactly the title's next character; a deleting tick removes exactly the
   * last one; neither moves the index or the mode.
   */
  lemma StepOneCharacter(s: TypeState)
    requires Good(s)
    ensures var r := Step(s);
      && (!s.deleting && s.typed != Titles[s.index] ==>
            |s.typed| < |Titles[s.index]| && r == s.(typed := s.typed + [Titles[s.index][|s.typed|]]))
      && (s.deleting && s.typed != "" ==> r == s.(typed := s.typed[..|s.typed| - 1]))
  {
    var title := Titles[s.index];
    if !s.deleting && s.typed != title {
      assert s.typed == title[..|s.typed|];
      assert |s.typed| != |title|;
      assert title[..|s.typed| + 1] == title[..|s.typed|] + [title[|s.typed|]];
    }
    if s.deleting && s.typed != "" {
      assert title[..|s.typed| - 1] == s.typed[..|s.typed| - 1];
    }
  }

  /**
   * The mode turns to deleting only on the full title and back to typing only on empty text, and
   * only that second flip moves the index, to the next title cyclically.
   */
  lemma StepFlips(s: TypeState)
    requires Good(s)
    ensures var r := Step(s);
      && (!s.deleting && r.deleting <==> !s.deleting && s.typed == Titles[s.index])
      && (s.deleting && !r.deleting <==> s.deleting && s.typed == "")
      && (r.index != s.index <==> s.deleting && s.typed == "")
      && (r.index != s.index ==> r.index == (s.index + 1) % |Titles| && r.typed == "")
  {
  }

  /** `n` ticks in a row. */
  function StepN(s: TypeState, n: nat): (r: TypeState)
    requires InRange(s)
    ensures InRange(r)
    decreases n
  {
    if n == 0 then s else StepN(Step(s), n - 1)
  }

  /** Ticks compose. */
  lemma {:induction false} StepNAdd(s: TypeState, a: nat, b: nat)
    requires InRange(s)
    ensures StepN(s, a + b) == StepN(StepN(s, a), b)
    decreases a
  {
    if a > 0 {
      StepNAdd(Step(s), a - 1, b);
    }
  }

  /** Starting from empty text, `k` typing ticks show the first `k` characters of the title. */
  lemma {:induction false} TypingPhase(i: int, k: nat)
    requires 0 <= i < |Titles| && k <= |Titles[i]|
    ensures StepN(TypeState("", i, false), k) == TypeState(Titles[i][..k], i, false)
  {
    if k > 0 {
      var s := TypeState("", i, false);
      TypingPhase(i, k - 1);
      StepNAdd(s, k - 1, 1);
      var title := Titles[i];
      assert title[..k - 1] != title by {
        assert |title[..k - 1]| != |title|;
      }
      assert Step(TypeState(title[..k - 1], i, false)).typed == title[..k];
    }
  }

  /** Starting from the full title in delete mode, `k` ticks remove the last `k` characters. */
  lemma {:induction false} DeletingPhase(i: int, k: nat)
    requires 0 <= i < |Titles| && k <= |Titles[i]|
    ensures StepN(TypeState(Titles[i], i, true), k) == TypeState(Titles[i][..|Titles[i]| - k], i, true)
  {
    var title := Titles[i];
    if k == 0 {
      assert title[..|title|] == title;
    } else {
      var s := TypeState(title, i, true);
      DeletingPhase(i, k - 1);
      StepNAdd(s, k - 1, 1);
      assert title[..|title| - (k - 1)] != "" by {
        assert |title[..|title| - (k - 1)]| > 0;
      }
    }
  }

  /**
   * A whole cycle: from the empty text of title `i`, typing it, the hold, deleting it and the
   * switch take `2 * |title| + 2` ticks and end on the empty text of the next title.
   */
  lemma Cycle(i: int)
    requires 0 <= i < |Titles|
    ensures StepN(TypeState("", i, false), 2 * |Titles[i]| + 2) == TypeState("", (i + 1) % |Titles|, false)
  {
    var title := Titles[i];
    var n := |title|;
    var s := TypeState("", i, false);
    TypingPhase(i, n);
    assert title[..n] == title;
    StepNAdd(s, n, 1);
    assert StepN(s, n + 1) == TypeState(title, i, true);
    DeletingPhase(i, n);
    StepNAdd(s, n + 1, n);
    assert StepN(s, 2 * n + 1) == TypeState("", i, true);
    StepNAdd(s, 2 * n + 1, 1);
  }

  /** The component's three state fields and its timer effect. */
  class Heading {
    var typed: string
    var index: int
    var deleting: bool

    /** Initial state: nothing typed, first title, typing. */
    constructor ()
      ensures typed == "" && index == 0 && !deleting
      ensures Good(TypeState(typed, index, deleting))
    {
      typed, index, deleting := "", 0, false;
    }

    /** One timer firing: the fields move by `Step`, and the prefix invariant is kept. */
    method Tick() returns (nextDelay: nat)
      requires Good(TypeState(typed, index, deleting))
      modifies this
      ensures TypeState(typed, index, deleting) == Step(old(TypeState(typed, index, deleting)))
      ensures Good(TypeState(typed, index, deleting))
      ensures nextDelay == Delay(TypeState(typed, index, deleting))
    {
      var s := TypeState(typed, index, deleting);
      StepKeepsGood(s);
      var title := Titles[index];
      if !deleting && typed != title {
        typed := Substring(title, |typed| + 1);
      } else if deleting && typed != "" {
        typed := Substring(title, |typed| - 1);
      } else if !deleting && typed == title {
        deleting := true;
      } else {
        deleting := false;
        index := (index + 1) % |Titles|;
      }
      nextDelay := if deleting then DeletingDelay else TypingDelay;
    }
  }
}
