/** Choosing the one gesture to display from the estimator's score list:
    the list of scores is reduced with `Math.max`, and the position of that
    maximum is looked up with `indexOf`, which yields the first position
    holding it. */
module Selection {
  import opened Types

  /** The scores of a gesture list, position by position (the `map` over
      the predictions). */
  function Scores(gs: seq<GestureScore>): seq<real>
  {
    seq(|gs|, i requires 0 <= i < |gs| => gs[i].score)
  }

  /** `Math.max` over a non-empty list, folding from the left. */
  function Max(s: seq<real>): (m: real)
    requires |s| > 0
    ensures m in s
    ensures forall j :: 0 <= j < |s| ==> s[j] <= m
  {
    if |s| == 1 then s[0]
    else
      var m := Max(s[..|s| - 1]);
      if s[|s| - 1] > m then s[|s| - 1] else m
  }

  /** `Array.prototype.indexOf`: the first position holding `x`, or -1 when
      no position does. */
  function IndexOf(s: seq<real>, x: real): (i: int)
    ensures -1 <= i < |s|
    ensures i == -1 <==> x !in s
    ensures 0 <= i ==> s[i] == x
    ensures forall j :: 0 <= j < i ==> s[j] != x
  {
    if |s| == 0 then -1
    else if s[0] == x then 0
    else
      var i := IndexOf(s[1..], x);
      if i == -1 then -1 else i + 1
  }

  /** `k` holds a largest score and no earlier position holds one as large:
      the reference meaning of "the first maximum". */
  predicate IsFirstMax(s: seq<real>, k: int)
  {
    0 <= k < |s| &&
    (forall j :: 0 <= j < |s| ==> s[j] <= s[k]) &&
    (forall j :: 0 <= j < k ==> s[j] < s[k])
  }

  /** `indexOf(Math.max(...s))`: always a valid position of a non-empty
      list, whose score is at least every other, and strictly above every
      earlier one, so among tied maxima the first wins. */
  function ArgMaxFirst(s: seq<real>): (k: nat)
    requires |s| > 0
    ensures k < |s|
    ensures forall j :: 0 <= j < |s| ==> s[j] <= s[k]
    ensures forall j :: 0 <= j < k ==> s[j] < s[k]
  {
    IndexOf(s, Max(s))
  }

  /** The first maximum is unique, and ArgMaxFirst is exactly it. */
  lemma ArgMaxFirstIsFirstMax(s: seq<real>, k: int)
    requires |s| > 0
    ensures IsFirstMax(s, k) <==> k == ArgMaxFirst(s)
  {
  }

  /** Of two positions that both hold the maximum score, the later one is
      never selected. */
  lemma TieGoesToFirst(s: seq<real>, i: nat, j: nat)
    requires i < j < |s|
    requires s[i] == s[j] == Max(s)
    ensures ArgMaxFirst(s) <= i
    ensures ArgMaxFirst(s) != j
  {
  }

  /** Appending one more score: it takes the selection only when it is
      strictly greater than the current best; an equal score never displaces
      an earlier one. */
  lemma ArgMaxFirstAppend(s: seq<real>, x: real)
    requires |s| > 0
    ensures ArgMaxFirst(s + [x]) == if x > s[ArgMaxFirst(s)] then |s| else ArgMaxFirst(s)
  {
  }

  /** The gesture name the estimator's result selects for display, or None
      when `gestures` is undefined or empty: then nothing is published. When
      a name is selected, it belongs to a first-maximum entry of the list. */
  function Selected(est: Estimation): (r: Option<string>)
    ensures r.None? <==> est.gestures.None? || |est.gestures.value| == 0
    ensures r.Some? ==>
      exists k :: IsFirstMax(Scores(est.gestures.value), k) &&
                  est.gestures.value[k].name == r.value
  {
    match est.gestures
    case None => None
    case Some(gs) =>
      if |gs| == 0 then None
      else
        var k := ArgMaxFirst(Scores(gs));
        assert IsFirstMax(Scores(gs), k);
        Some(gs[k].name)
  }

  /** When there is something to select, the name is the one at ArgMaxFirst
      of the scores, and its score is that list's maximum. */
  lemma SelectedIsArgMaxFirst(est: Estimation)
    requires est.gestures.Some? && |est.gestures.value| > 0
    ensures var gs := est.gestures.value;
            var k := ArgMaxFirst(Scores(gs));
            Selected(est) == Some(gs[k].name) && gs[k].score == Max(Scores(gs))
  {
  }
}
