/** The simplified MBTI scoring of the report page: the first (at most) 60
    answers are read, item i feeds axis i mod 4 (E/I, S/N, T/F, J/P), an
    answer of 3 or more counts for the first letter of the pair and a lower
    one for the second, and each letter of the type is the pair member with
    strictly more votes, ties going to the second. */
module Mbti {
  import opened Wrappers

  /** How many leading answers the scoring reads at most. */
  const ItemsRead: int := 60

  datatype Counts = Counts(e: nat, i: nat, s: nat, n: nat, t: nat, f: nat, j: nat, p: nat)

  /** The type code and the four axis letters (EI, SN, TF, JP). */
  datatype MbtiType = MbtiType(code: string, letters: seq<char>, counts: Counts)

  /** The slots the scoring reads. */
  function ReadSlots(answers: seq<Option<int>>): (r: seq<Option<int>>)
    ensures |r| == if |answers| < ItemsRead then |answers| else ItemsRead
    ensures r == answers[..|r|]
  {
    if |answers| < ItemsRead then answers else answers[..ItemsRead]
  }

  /** The number of answered slots at positions congruent to axis mod 4
      whose answer is 3 or more (agree) or below 3 (not agree). */
  function Votes(slots: seq<Option<int>>, axis: int, agree: bool): nat {
    if slots == [] then 0
    else
      var k := |slots| - 1;
      Votes(slots[..k], axis, agree) +
      (if slots[k].Some? && k % 4 == axis && (slots[k].value >= 3) == agree then 1 else 0)
  }

  /** The number of answered slots. */
  function AnsweredSlots(slots: seq<Option<int>>): nat {
    if slots == [] then 0
    else AnsweredSlots(slots[..|slots| - 1]) + (if slots[|slots| - 1].Some? then 1 else 0)
  }

  function CountsOf(slots: seq<Option<int>>): Counts {
    Counts(Votes(slots, 0, true), Votes(slots, 0, false),
           Votes(slots, 1, true), Votes(slots, 1, false),
           Votes(slots, 2, true), Votes(slots, 2, false),
           Votes(slots, 3, true), Votes(slots, 3, false))
  }

  /** The first letter when it has strictly more votes, else the second. */
  function Pick(first: nat, second: nat, a: char, b: char): char {
    if first > second then a else b
  }

  function LettersOf(c: Counts): seq<char> {
    [Pick(c.e, c.i, 'E', 'I'), Pick(c.s, c.n, 'S', 'N'), Pick(c.t, c.f, 'T', 'F'), Pick(c.j, c.p, 'J', 'P')]
  }

  /** The page's counting loop over the first min(length, 60) answers. */
  method CalculateMbtiType(answers: seq<Option<int>>) returns (r: MbtiType)
    ensures r.counts == CountsOf(ReadSlots(answers))
    ensures r.letters == LettersOf(r.counts)
    ensures r.code == r.letters
  {
    var eCount, iCount, sCount, nCount, tCount, fCount, jCount, pCount := 0, 0, 0, 0, 0, 0, 0, 0;
    var limit := if |answers| < ItemsRead then |answers| else ItemsRead;
    var k := 0;
    while k < limit
      invariant 0 <= k <= limit
      invariant eCount == Votes(answers[..k], 0, true) && iCount == Votes(answers[..k], 0, false)
      invariant sCount == Votes(answers[..k], 1, true) && nCount == Votes(answers[..k], 1, false)
      invariant tCount == Votes(answers[..k], 2, true) && fCount == Votes(answers[..k], 2, false)
      invariant jCount == Votes(answers[..k], 3, true) && pCount == Votes(answers[..k], 3, false)
    {
      assert answers[..k + 1][..k] == answers[..k];
      var answer := answers[k];
      if answer.Some? {
        if k % 4 == 0 {
          if answer.value >= 3 { eCount := eCount + 1; } else { iCount := iCount + 1; }
        } else if k % 4 == 1 {
          if answer.value >= 3 { sCount := sCount + 1; } else { nCount := nCount + 1; }
        } else if k % 4 == 2 {
          if answer.value >= 3 { tCount := tCount + 1; } else { fCount := fCount + 1; }
        } else {
          if answer.value >= 3 { jCount := jCount + 1; } else { pCount := pCount + 1; }
        }
      }
      k := k + 1;
    }
    assert answers[..k] == ReadSlots(answers);
    var counts := Counts(eCount, iCount, sCount, nCount, tCount, fCount, jCount, pCount);
    var letters := [if eCount > iCount then 'E' else 'I',
                    if sCount > nCount then 'S' else 'N',
                    if tCount > fCount then 'T' else 'F',
                    if jCount > pCount then 'J' else 'P'];
    var code := [letters[0]] + [letters[1]] + [letters[2]] + [letters[3]];
    r := MbtiType(code, letters, counts);
  }

  // ---------------------------------------------------------------------
  // Lemmas
  // ---------------------------------------------------------------------

  function Total(c: Counts): nat {
    c.e + c.i + c.s + c.n + c.t + c.f + c.j + c.p
  }

  /** Every answered slot casts exactly one vote: the eight counts add up to
      the number of answered slots. */
  lemma {:induction false} VotesAddUp(slots: seq<Option<int>>)
    ensures Total(CountsOf(slots)) == AnsweredSlots(slots)
  {
    if slots != [] {
      VotesAddUp(slots[..|slots| - 1]);
    }
  }

  /** Answers after the sixtieth are never read. */
  lemma OnlyFirstSixtyRead(answers: seq<Option<int>>, other: seq<Option<int>>)
    requires |answers| >= ItemsRead && |other| >= ItemsRead
    requires answers[..ItemsRead] == other[..ItemsRead]
    ensures CountsOf(ReadSlots(answers)) == CountsOf(ReadSlots(other))
  {
  }

  /** A slot votes on one axis only: its position's residue mod 4. */
  lemma {:induction false} VotesOnOtherAxesUnchanged(slots: seq<Option<int>>, a: Option<int>, axis: int, agree: bool)
    requires axis != |slots| % 4
    ensures Votes(slots + [a], axis, agree) == Votes(slots, axis, agree)
  {
    assert (slots + [a])[..|slots|] == slots;
  }

  /** Each letter is the first of its pair exactly when that pole has
      strictly more votes; ties give the second. */
  lemma LetterMeansMajority(c: Counts)
    ensures LettersOf(c)[0] == 'E' <==> c.e > c.i
    ensures LettersOf(c)[1] == 'S' <==> c.s > c.n
    ensures LettersOf(c)[2] == 'T' <==> c.t > c.f
    ensures LettersOf(c)[3] == 'J' <==> c.j > c.p
    ensures LettersOf(c)[0] in "EI" && LettersOf(c)[1] in "SN" && LettersOf(c)[2] in "TF" && LettersOf(c)[3] in "JP"
  {
  }

  /** With nothing answered every count is 0 and the type is INFP. */
  lemma {:induction false} UnansweredIsINFP(slots: seq<Option<int>>)
    requires forall k :: 0 <= k < |slots| ==> slots[k].None?
    ensures AnsweredSlots(slots) == 0
    ensures LettersOf(CountsOf(slots)) == "INFP"
  {
    if slots != [] {
      UnansweredIsINFP(slots[..|slots| - 1]);
    }
    VotesAddUp(slots);
  }
}
