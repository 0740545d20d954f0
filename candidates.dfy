/** The candidate list of an election round, as it is kept in the store: the ids of the
    peers that voted, each as its decimal text, joined with commas. This module holds the
    pure parts of voting and of concluding a round: reading the list, appending a vote,
    reading the pieces as numbers and choosing the largest. */
module Candidates {
  import opened Wrappers
  import opened Text

  /** The list a voter reads from the stored value: a missing or empty value is falsy in
      JavaScript and reads as no candidates, anything else is split on commas
      (browbeat.js:158-159). The stored value is recovered by joining the list again. */
  function CandidateList(stored: Option<string>): (votes: seq<string>)
    ensures stored.None? || stored.value == [] ==> votes == []
    ensures stored.Some? && stored.value != [] ==> votes != [] && Join(votes) == stored.value
    ensures forall i :: 0 <= i < |votes| ==> Separator !in votes[i]
  {
    if stored.None? || stored.value == [] then []
    else
      JoinSplit(stored.value);
      Split(stored.value)
  }

  /** The value a vote writes back (browbeat.js:158-161): reading it as a candidate list
      gives the earlier candidates, in their order, followed by the voter's id. */
  function AppendVote(stored: Option<string>, id: nat): (value: string)
    ensures value != []
    ensures CandidateList(Some(value)) == CandidateList(stored) + [Show(id)]
  {
    var votes := CandidateList(stored) + [Show(id)];
    assert votes[|votes| - 1] == Show(id);
    SplitJoin(votes);
    Join(votes)
  }

  /** `Number(piece)` for every piece, or `None` (a `NaN`) as soon as one piece is not a
      number: `Math.max` of a list holding `NaN` is `NaN`. */
  function ParseAll(pieces: seq<string>): (ids: Option<seq<nat>>)
    ensures ids.Some? <==> forall i :: 0 <= i < |pieces| ==> ToNumber(pieces[i]).Some?
    ensures ids.Some? ==> |ids.value| == |pieces|
    ensures ids.Some? ==> forall i :: 0 <= i < |pieces| ==> ToNumber(pieces[i]) == Some(ids.value[i])
  {
    if pieces == [] then Some([])
    else
      match (ToNumber(pieces[0]), ParseAll(pieces[1..]))
      case (Some(n), Some(ns)) =>
        assert forall i :: 1 <= i < |pieces| ==> pieces[i] == pieces[1..][i - 1];
        Some([n] + ns)
      case _ =>
        None
  }

  /** The decimal texts of a list of ids, in order. */
  function ShowAll(ids: seq<nat>): (texts: seq<string>)
    ensures |texts| == |ids|
    ensures forall i :: 0 <= i < |ids| ==> texts[i] == Show(ids[i])
  {
    seq(|ids|, i requires 0 <= i < |ids| => Show(ids[i]))
  }

  /** The stored form of a list of ids: their decimal texts joined with commas. */
  function EncodeIds(ids: seq<nat>): string {
    Join(ShowAll(ids))
  }

  /** A list of ids written in stored form reads back as the same ids, in the same order. */
  lemma DecodeEncodeIds(ids: seq<nat>)
    ensures CandidateList(Some(EncodeIds(ids))) == ShowAll(ids)
    ensures ParseAll(ShowAll(ids)) == Some(ids)
  {
    var texts := ShowAll(ids);
    if ids != [] {
      assert texts[0] == Show(ids[0]);
      SplitJoin(texts);
    }
    forall i | 0 <= i < |ids| ensures ToNumber(texts[i]) == Some(ids[i]) {
      ToNumberShow(ids[i]);
    }
    var parsed := ParseAll(texts);
    assert parsed.Some?;
    assert forall i :: 0 <= i < |ids| ==> parsed.value[i] == ids[i];
    assert parsed.value == ids;
  }

  /** A vote keeps the numeric reading of the list too: the earlier ids followed by the
      voter's id. */
  lemma AppendVoteIds(stored: Option<string>, id: nat, ids: seq<nat>)
    requires ParseAll(CandidateList(stored)) == Some(ids)
    ensures ParseAll(CandidateList(Some(AppendVote(stored, id)))) == Some(ids + [id])
  {
    ToNumberShow(id);
    var votes := CandidateList(stored) + [Show(id)];
    assert forall i :: 0 <= i < |votes| - 1 ==> votes[i] == CandidateList(stored)[i];
    assert votes[|votes| - 1] == Show(id);
    var parsed := ParseAll(votes);
    assert parsed.Some?;
    assert forall i :: 0 <= i < |votes| ==> parsed.value[i] == (ids + [id])[i];
    assert parsed.value == ids + [id];
  }

  /** `Math.max` of a non-empty list of numbers: one of them, and no smaller than any. */
  function MaxOf(xs: seq<nat>): (m: nat)
    requires |xs| > 0
    ensures m in xs
    ensures forall x :: x in xs ==> x <= m
  {
    if |xs| == 1 then xs[0]
    else
      var r := MaxOf(xs[1..]);
      assert forall x :: x in xs ==> x == xs[0] || x in xs[1..];
      if xs[0] >= r then xs[0] else r
  }

  /** The winner `endElection` computes (browbeat.js:189-191): with no stored candidates it
      is the concluding peer itself; otherwise the largest of the stored candidates read as
      numbers, or `None` (`NaN`) when one of them is not a number. */
  function Winner(stored: Option<string>, self: nat): (w: Option<nat>)
    ensures CandidateList(stored) == [] ==> w == Some(self)
    ensures CandidateList(stored) != [] ==> (w.Some? <==> ParseAll(CandidateList(stored)).Some?)
    ensures CandidateList(stored) != [] && w.Some? ==>
      w.value in ParseAll(CandidateList(stored)).value &&
      forall x :: x in ParseAll(CandidateList(stored)).value ==> x <= w.value
  {
    var votes := CandidateList(stored);
    if votes == [] then Some(self)
    else
      match ParseAll(votes)
      case None => None
      case Some(ids) => Some(MaxOf(ids))
  }

  /** A round whose stored candidates are `ids` is won by the largest of them, or by the
      concluding peer when there are none. */
  lemma WinnerOfEncoded(ids: seq<nat>, self: nat)
    ensures Winner(Some(EncodeIds(ids)), self) == Some(if ids == [] then self else MaxOf(ids))
  {
    DecodeEncodeIds(ids);
    if ids != [] {
      var w := Winner(Some(EncodeIds(ids)), self);
      assert w.value in ids && MaxOf(ids) in ids;
      assert w.value <= MaxOf(ids) && MaxOf(ids) <= w.value;
    }
  }

  /** A round with the candidates 3, 7, 2 and 9 is won by 9, whoever concludes it. */
  lemma WinnerOfThreeSevenTwoNine(self: nat)
    ensures Winner(Some(EncodeIds([3, 7, 2, 9])), self) == Some(9)
  {
    WinnerOfEncoded([3, 7, 2, 9], self);
  }

}
