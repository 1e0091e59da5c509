/**
 * `getVotesForInstance` of SPLOB: every member's vote vector is L1-normalised
 * and added into the combined vote, which grows to the longest vector added;
 * a member whose vote sums to 0 or less abstains. Votes are `real`s here.
 */
module SplobVotes {

  /** `DoubleVector.sumOfValues`: the total weight of a vote. */
  function SumOfValues(v: seq<real>): real
  {
    if |v| == 0 then 0.0 else v[0] + SumOfValues(v[1..])
  }

  /** `DoubleVector.scaleValues`. */
  function Scale(v: seq<real>, c: real): (r: seq<real>)
    ensures |r| == |v|
  {
    if |v| == 0 then [] else [v[0] * c] + Scale(v[1..], c)
  }

  /** `DoubleVector.normalize`: scale by the reciprocal of the sum. */
  function Normalize(v: seq<real>): seq<real>
    requires SumOfValues(v) > 0.0
  {
    Scale(v, 1.0 / SumOfValues(v))
  }

  /** `DoubleVector.addValues`: element-wise sum, the shorter vector read as zero-extended. */
  function AddValues(a: seq<real>, b: seq<real>): (r: seq<real>)
    ensures |r| == if |a| >= |b| then |a| else |b|
  {
    if |a| == 0 then b
    else if |b| == 0 then a
    else [a[0] + b[0]] + AddValues(a[1..], b[1..])
  }

  /** A member's vote, zero-extended. */
  function At(v: seq<real>, j: nat): real
  {
    if j < |v| then v[j] else 0.0
  }

  /** What member vote `v` adds to the combined vote. */
  function Contribution(v: seq<real>): seq<real>
  {
    if SumOfValues(v) > 0.0 then Normalize(v) else []
  }

  /** The combination loop, member by member: as long as the widest non-abstaining vote. */
  function CombineVotes(votes: seq<seq<real>>): (r: seq<real>)
    ensures |r| == Width(votes)
    decreases |votes|
  {
    if |votes| == 0 then []
    else AddValues(CombineVotes(votes[..|votes| - 1]), Contribution(votes[|votes| - 1]))
  }

  /** The number of members that do not abstain. */
  function Voters(votes: seq<seq<real>>): nat
    decreases |votes|
  {
    if |votes| == 0 then 0
    else Voters(votes[..|votes| - 1]) + (if SumOfValues(votes[|votes| - 1]) > 0.0 then 1 else 0)
  }

  /** Entry `j` of the combined vote, read member by member: the share of class `j` in
      each non-abstaining member's vote. */
  function Column(votes: seq<seq<real>>, j: nat): real
    decreases |votes|
  {
    if |votes| == 0 then 0.0
    else
      var v := votes[|votes| - 1];
      Column(votes[..|votes| - 1], j) + (if SumOfValues(v) > 0.0 then At(v, j) / SumOfValues(v) else 0.0)
  }

  /** The length of the longest non-abstaining vote. */
  function Width(votes: seq<seq<real>>): nat
    decreases |votes|
  {
    if |votes| == 0 then 0
    else
      var w := Width(votes[..|votes| - 1]);
      var v := votes[|votes| - 1];
      if SumOfValues(v) > 0.0 && |v| > w then |v| else w
  }

  lemma {:induction false} SumScale(v: seq<real>, c: real)
    ensures SumOfValues(Scale(v, c)) == SumOfValues(v) * c
    decreases |v|
  {
    if |v| > 0 {
      SumScale(v[1..], c);
    }
  }

  lemma {:induction false} ScaleAt(v: seq<real>, c: real, j: nat)
    ensures At(Scale(v, c), j) == At(v, j) * c
    decreases |v|
  {
    if |v| > 0 && j > 0 {
      ScaleAt(v[1..], c, j - 1);
    }
  }

  /** A normalised vote sums to one. */
  lemma NormalizeSumsToOne(v: seq<real>)
    requires SumOfValues(v) > 0.0
    ensures SumOfValues(Normalize(v)) == 1.0
  {
    SumScale(v, 1.0 / SumOfValues(v));
  }

  lemma {:induction false} SumAddValues(a: seq<real>, b: seq<real>)
    ensures SumOfValues(AddValues(a, b)) == SumOfValues(a) + SumOfValues(b)
    decreases |a|
  {
    if |a| > 0 && |b| > 0 {
      SumAddValues(a[1..], b[1..]);
    }
  }

  lemma {:induction false} AddValuesAt(a: seq<real>, b: seq<real>, j: nat)
    ensures At(AddValues(a, b), j) == At(a, j) + At(b, j)
    decreases |a|
  {
    if |a| > 0 && |b| > 0 && j > 0 {
      AddValuesAt(a[1..], b[1..], j - 1);
    }
  }

  /** The combined vote spreads exactly one unit of weight per non-abstaining member. */
  lemma {:induction false} CombinedVoteMass(votes: seq<seq<real>>)
    ensures SumOfValues(CombineVotes(votes)) == Voters(votes) as real
    decreases |votes|
  {
    if |votes| > 0 {
      var v := votes[|votes| - 1];
      CombinedVoteMass(votes[..|votes| - 1]);
      SumAddValues(CombineVotes(votes[..|votes| - 1]), Contribution(v));
      if SumOfValues(v) > 0.0 {
        NormalizeSumsToOne(v);
      }
    }
  }

  /** Entry `j` of the combined vote is the sum of the members' normalised shares of class `j`. */
  lemma {:induction false} CombinedVoteEntry(votes: seq<seq<real>>, j: nat)
    ensures At(CombineVotes(votes), j) == Column(votes, j)
    decreases |votes|
  {
    if |votes| > 0 {
      var v := votes[|votes| - 1];
      var prefix := votes[..|votes| - 1];
      var c := CombineVotes(prefix);
      var share := if SumOfValues(v) > 0.0 then At(v, j) / SumOfValues(v) else 0.0;
      CombinedVoteEntry(prefix, j);
      assert CombineVotes(votes) == AddValues(c, Contribution(v));
      assert Column(votes, j) == Column(prefix, j) + share;
      AddValuesAt(c, Contribution(v), j);
      ContributionAt(v, j);
    }
  }

  /** A member's contribution to class `j`: its share of that class, or nothing if it abstains. */
  lemma ContributionAt(v: seq<real>, j: nat)
    ensures At(Contribution(v), j) == (if SumOfValues(v) > 0.0 then At(v, j) / SumOfValues(v) else 0.0)
  {
    if SumOfValues(v) > 0.0 {
      ScaleAt(v, 1.0 / SumOfValues(v), j);
      DivAsMul(At(v, j), SumOfValues(v));
    }
  }

  lemma DivAsMul(a: real, b: real)
    requires b != 0.0
    ensures a * (1.0 / b) == a / b
  {
  }

  /** Every entry of the combined vote is the sum of the members' normalised shares of
      that class (its length is stated by `CombineVotes` itself). */
  lemma CombinedVoteEntries(votes: seq<seq<real>>)
    ensures forall j: nat :: At(CombineVotes(votes), j) == Column(votes, j)
  {
    forall j: nat
      ensures At(CombineVotes(votes), j) == Column(votes, j)
    {
      CombinedVoteEntry(votes, j);
    }
  }

  /** Two members voting [2, 2] and [0, 0]: the second abstains. */
  lemma CombineVotesExample()
    ensures CombineVotes([[2.0, 2.0], [0.0, 0.0]]) == [0.5, 0.5]
  {
    var votes: seq<seq<real>> := [[2.0, 2.0], [0.0, 0.0]];
    var first: seq<seq<real>> := votes[..1];
    assert first == [[2.0, 2.0]];
    assert first[..0] == [];
    assert SumOfValues([0.0, 0.0]) == 0.0;
    assert SumOfValues([2.0, 2.0]) == 4.0;
  }
}
