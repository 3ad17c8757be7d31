/**
 * The tally engine of `calculate_ranking` (src/ranking.rs:129-274), the same
 * computation that `debug_ranking` repeats (src/services/ranking.rs:55-214).
 *
 * Scores and weights are exact reals instead of `f32`. The standard deviation
 * is kept as its square (the division before `sqrt`), whose absence is the
 * model of the source's non-finite result.
 */
module Tally {
  import opened Entities
  import opened Sorting

  /** Cap on the summed weight of one voter's ballots (`MAX_ACC_VOTING_POWER`). */
  const MaxAccVotingPower: real := 2.5

  /** Slots per ballot in the positional score (`NUMBER_OF_PLAYERS_IN_VOTE`). */
  const PlayersInVote: nat := 4

  /** One (score, weight) pair appended to a player's list (`struct Vote`). */
  datatype Vote = Vote(score: real, weight: real)

  /** A vote given to a player by one ballot. */
  datatype Scored = Scored(player: int, vote: Vote)

  /** `votes_per_player`: every pair each player received, in ballot order. */
  type PerPlayer = map<int, seq<Vote>>

  /** `RankingEntry`; `variance` is the square of `desvio_padrao`. */
  datatype RankingEntry = RankingEntry(
    pos: int, id: int, nome: string, media: real, votos: nat, variance: Option<real>)

  /** `Ranking`: entries by ascending position, when it was computed, ballots examined. */
  datatype Ranking = Ranking(entries: seq<RankingEntry>, timestamp: int, votes: nat)

  /**
   * `NUMBER_OF_PLAYERS_IN_VOTE - i` is a `usize` subtraction: a ballot whose
   * vote ranks more than five players makes it underflow and abort the tally.
   */
  datatype TallyError = ScoreUnderflow

  // ---------------------------------------------------------------------
  // Step 1: ballots per voter and voting power
  // ---------------------------------------------------------------------

  /** The voter of each ballot, in ballot order. */
  function VoterSeq(votes: seq<Ballot>): seq<string>
  {
    seq(|votes|, i requires 0 <= i < |votes| => votes[i].voter)
  }

  /** How many of `votes` each voter cast. */
  function VoterCounts(votes: seq<Ballot>): map<string, nat>
  {
    var voters := multiset(VoterSeq(votes));
    map v | v in voters :: voters[v]
  }

  /** A voter with `count` ballots gets weight 1 up to 2.5 ballots, else 2.5 / count. */
  function Weight(count: nat): real
  {
    if count as real <= MaxAccVotingPower then 1.0 else MaxAccVotingPower / count as real
  }

  /** `vote_power`: the weight of every voter. */
  function VotePower(counts: map<string, nat>): map<string, real>
  {
    map v | v in counts :: Weight(counts[v])
  }

  /**
   * A weight lies in (0, 1]; it is 1 exactly for one or two ballots; and the
   * weights of all of one voter's ballots add up to min(count, 2.5).
   */
  lemma WeightBounds(c: nat)
    requires c >= 1
    ensures 0.0 < Weight(c) <= 1.0
    ensures Weight(c) == 1.0 <==> c <= 2
    ensures c as real * Weight(c) == if c <= 2 then c as real else MaxAccVotingPower
  {
    if c > 2 {
      assert c as real * (MaxAccVotingPower / c as real) == MaxAccVotingPower;
    }
  }

  lemma VoterCountsSnoc(prefix: seq<Ballot>, b: Ballot)
    ensures VoterCounts(prefix + [b]) ==
      var m := VoterCounts(prefix);
      m[b.voter := (if b.voter in m then m[b.voter] else 0) + 1]
  {
    assert VoterSeq(prefix + [b]) == VoterSeq(prefix) + [b.voter];
    var before := multiset(VoterSeq(prefix));
    var after := multiset(VoterSeq(prefix + [b]));
    assert after == before + multiset{b.voter};
    var m := VoterCounts(prefix);
    var expected := m[b.voter := (if b.voter in m then m[b.voter] else 0) + 1];
    forall v | v in VoterCounts(prefix + [b])
      ensures v in expected && expected[v] == VoterCounts(prefix + [b])[v]
    {
    }
  }

  /** One step of the counting loop over a prefix of `votes`. */
  lemma VoterCountsStep(votes: seq<Ballot>, i: nat)
    requires i < |votes|
    ensures VoterCounts(votes[..i + 1]) ==
      var m := VoterCounts(votes[..i]);
      m[votes[i].voter := (if votes[i].voter in m then m[votes[i].voter] else 0) + 1]
  {
    assert votes[..i + 1] == votes[..i] + [votes[i]];
    VoterCountsSnoc(votes[..i], votes[i]);
  }

  /** The counting loop of src/ranking.rs:144-149. */
  method CountVotesPerVoter(votes: seq<Ballot>) returns (counts: map<string, nat>)
    ensures counts == VoterCounts(votes)
  {
    counts := map[];
    for i := 0 to |votes|
      invariant counts == VoterCounts(votes[..i])
    {
      VoterCountsStep(votes, i);
      var voter := votes[i].voter;
      var c := if voter in counts then counts[voter] else 0;
      counts := counts[voter := c + 1];
    }
    assert votes[..|votes|] == votes;
  }

  /** Every voter of `votes` has a count, and the count is the number of their ballots. */
  lemma VoterCountsMeaning(votes: seq<Ballot>, k: nat)
    requires k < |votes|
    ensures votes[k].voter in VoterCounts(votes)
    ensures VoterCounts(votes)[votes[k].voter] == |set i | 0 <= i < |votes| && votes[i].voter == votes[k].voter|
  {
    var v := votes[k].voter;
    assert VoterSeq(votes)[k] == v;
    CountIndices(VoterSeq(votes), v);
    assert (set i | 0 <= i < |votes| && VoterSeq(votes)[i] == v)
        == (set i | 0 <= i < |votes| && votes[i].voter == v);
  }

  lemma {:induction false} CountIndices(s: seq<string>, v: string)
    ensures multiset(s)[v] == |set i | 0 <= i < |s| && s[i] == v|
  {
    if s != [] {
      var n := |s| - 1;
      assert s == s[..n] + [s[n]];
      CountIndices(s[..n], v);
      var before := set i | 0 <= i < n && s[..n][i] == v;
      var all := set i | 0 <= i < |s| && s[i] == v;
      if s[n] == v {
        assert all == before + {n};
      } else {
        assert all == before;
      }
    }
  }

  /** Every voter in the power table has a weight in (0, 1]. */
  lemma VotePowerBounds(votes: seq<Ballot>)
    ensures forall i :: 0 <= i < |votes| ==> votes[i].voter in VotePower(VoterCounts(votes))
    ensures PowerInRange(VotePower(VoterCounts(votes)))
  {
    forall i | 0 <= i < |votes|
      ensures votes[i].voter in VotePower(VoterCounts(votes))
    {
      VoterCountsMeaning(votes, i);
    }
    var counts := VoterCounts(votes);
    forall v | v in counts ensures 0.0 < Weight(counts[v]) <= 1.0 {
      WeightBounds(counts[v]);
    }
  }

  predicate PowerInRange(power: map<string, real>)
  {
    forall v :: v in power ==> 0.0 < power[v] <= 1.0
  }

  // ---------------------------------------------------------------------
  // Step 2: what one ballot gives each player
  // ---------------------------------------------------------------------

  /** The offered players the vote does not mention, in offered order. */
  function Unranked(players: seq<int>, vote: seq<int>): seq<int>
  {
    if players == [] then []
    else (if players[0] in vote then [] else [players[0]]) + Unranked(players[1..], vote)
  }

  lemma {:induction false} UnrankedMembers(players: seq<int>, vote: seq<int>)
    ensures forall x :: x in Unranked(players, vote) <==> x in players && x !in vote
    ensures |Unranked(players, vote)| <= |players|
  {
    if players != [] {
      UnrankedMembers(players[1..], vote);
      assert players == [players[0]] + players[1..];
    }
  }

  lemma {:induction false} UnrankedOfEmptyVote(players: seq<int>)
    ensures Unranked(players, []) == players
  {
    if players != [] {
      UnrankedOfEmptyVote(players[1..]);
    }
  }

  /** The positional score needs `4 - i` to stay a `usize`, so at most five ranked players. */
  predicate Scorable(b: Ballot)
  {
    |b.vote| <= PlayersInVote + 1
  }

  predicate AllScorable(votes: seq<Ballot>)
  {
    forall i :: 0 <= i < |votes| ==> Scorable(votes[i])
  }

  function RankedScore(i: nat): real
    requires i <= PlayersInVote
  {
    (PlayersInVote - i) as real / PlayersInVote as real
  }

  function UnrankedScore(u: nat): real
  {
    (u as real - 1.0) / (PlayersInVote as real * 2.0)
  }

  /** The pairs one ballot appends: the ranked players in order, then the unranked ones. */
  function BallotScores(b: Ballot, w: real): seq<Scored>
    requires Scorable(b)
  {
    var u := Unranked(b.players, b.vote);
    seq(|b.vote|, i requires 0 <= i < |b.vote| => Scored(b.vote[i], Vote(RankedScore(i), w)))
    + seq(|u|, j requires 0 <= j < |u| => Scored(u[j], Vote(UnrankedScore(|u|), w)))
  }

  /**
   * A ballot appends |vote| + u pairs: the player at index i of the vote scores
   * (4 - i) / 4, and then each of the u unranked offered players, in offered
   * order and once each, scores (u - 1) / 8.
   */
  lemma BallotScoresShape(b: Ballot, w: real)
    requires Scorable(b)
    ensures var u := Unranked(b.players, b.vote);
      && |BallotScores(b, w)| == |b.vote| + |u|
      && (forall i :: 0 <= i < |b.vote| ==>
            BallotScores(b, w)[i] == Scored(b.vote[i], Vote((4 - i) as real / 4.0, w)))
      && (forall j :: |b.vote| <= j < |BallotScores(b, w)| ==>
            var s := BallotScores(b, w)[j];
            s.player in b.players && s.player !in b.vote
            && s.vote == Vote((|u| as real - 1.0) / 8.0, w))
      && (forall j :: 0 <= j < |u| ==>
            BallotScores(b, w)[|b.vote| + j] == Scored(u[j], Vote((|u| as real - 1.0) / 8.0, w)))
  {
    UnrankedMembers(b.players, b.vote);
    var u := Unranked(b.players, b.vote);
    forall j | |b.vote| <= j < |BallotScores(b, w)|
      ensures BallotScores(b, w)[j].player in u
      ensures BallotScores(b, w)[j].vote == Vote((|u| as real - 1.0) / 8.0, w)
    {
      assert BallotScores(b, w)[j] == Scored(u[j - |b.vote|], Vote(UnrankedScore(|u|), w));
    }
    forall j | 0 <= j < |u|
      ensures BallotScores(b, w)[|b.vote| + j] == Scored(u[j], Vote((|u| as real - 1.0) / 8.0, w))
    {
      assert BallotScores(b, w)[|b.vote| + j] == Scored(u[j], Vote(UnrankedScore(|u|), w));
    }
  }

  /** A ballot closed without a vote gives each of its five offered players 0.5. */
  lemma EmptyVoteScoresHalf(b: Ballot, w: real)
    requires b.vote == [] && |b.players| == 5
    ensures |BallotScores(b, w)| == 5
    ensures forall j :: 0 <= j < 5 ==> BallotScores(b, w)[j] == Scored(b.players[j], Vote(0.5, w))
  {
    UnrankedOfEmptyVote(b.players);
    assert UnrankedScore(5) == 0.5;
    assert BallotScores(b, w) ==
      seq(5, j requires 0 <= j < 5 => Scored(b.players[j], Vote(UnrankedScore(5), w)));
  }

  // ---------------------------------------------------------------------
  // Accumulating the pairs per player
  // ---------------------------------------------------------------------

  /** The pairs a map holds for `p` (none if `p` is absent). */
  function Lookup(m: PerPlayer, p: int): seq<Vote>
  {
    if p in m then m[p] else []
  }

  function AddEntry(m: PerPlayer, s: Scored): PerPlayer
  {
    m[s.player := Lookup(m, s.player) + [s.vote]]
  }

  /** Push every pair of `ss`, in order, onto its player's list. */
  function AddAll(m: PerPlayer, ss: seq<Scored>): PerPlayer
    decreases |ss|
  {
    if ss == [] then m else AddEntry(AddAll(m, ss[..|ss| - 1]), ss[|ss| - 1])
  }

  predicate PowerCovers(votes: seq<Ballot>, power: map<string, real>)
  {
    forall i :: 0 <= i < |votes| ==> votes[i].voter in power
  }

  /** `votes_per_player` after the loop of src/ranking.rs:176-210 over `votes`. */
  function Collect(votes: seq<Ballot>, power: map<string, real>): PerPlayer
    requires AllScorable(votes) && PowerCovers(votes, power)
    decreases |votes|
  {
    if votes == [] then map[]
    else
      var last := votes[|votes| - 1];
      AddAll(Collect(votes[..|votes| - 1], power), BallotScores(last, power[last.voter]))
  }

  /** Reference definition: the pairs of `ss` addressed to `p`, in order. */
  function ScoresOf(ss: seq<Scored>, p: int): seq<Vote>
    decreases |ss|
  {
    if ss == [] then []
    else
      var last := ss[|ss| - 1];
      ScoresOf(ss[..|ss| - 1], p) + (if last.player == p then [last.vote] else [])
  }

  /** Reference definition: every pair any of `votes` gives `p`, ballot by ballot. */
  function EntriesFor(votes: seq<Ballot>, power: map<string, real>, p: int): seq<Vote>
    requires AllScorable(votes) && PowerCovers(votes, power)
    decreases |votes|
  {
    if votes == [] then []
    else
      var last := votes[|votes| - 1];
      EntriesFor(votes[..|votes| - 1], power, p) + ScoresOf(BallotScores(last, power[last.voter]), p)
  }

  /** Adding one pair appends it to its player's list and to no other. */
  lemma AddEntryLookup(m: PerPlayer, s: Scored, p: int)
    ensures Lookup(AddEntry(m, s), p) == Lookup(m, p) + (if s.player == p then [s.vote] else [])
    ensures p in AddEntry(m, s) <==> p in m || s.player == p
  {
  }

  /** Adding a batch of pairs appends exactly that player's share of the batch. */
  lemma {:induction false} AddAllLookup(m: PerPlayer, ss: seq<Scored>, p: int)
    ensures Lookup(AddAll(m, ss), p) == Lookup(m, p) + ScoresOf(ss, p)
    ensures p in AddAll(m, ss) <==> p in m || ScoresOf(ss, p) != []
    decreases |ss|
  {
    if ss != [] {
      var n := |ss| - 1;
      var init := ss[..n];
      AddAllLookup(m, init, p);
      AddEntryLookup(AddAll(m, init), ss[n], p);
      var tail := if ss[n].player == p then [ss[n].vote] else [];
      assert AddAll(m, ss) == AddEntry(AddAll(m, init), ss[n]);
      assert ScoresOf(ss, p) == ScoresOf(init, p) + tail;
      assert |ScoresOf(ss, p)| == |ScoresOf(init, p)| + |tail|;
      assert (Lookup(m, p) + ScoresOf(init, p)) + tail == Lookup(m, p) + (ScoresOf(init, p) + tail);
    }
  }

  /**
   * The accumulated map agrees with the reference definition: a player has a
   * list exactly when some ballot gives them a pair, and the list is every such
   * pair in ballot order; so `votos` counts the pairs appended for the player.
   */
  lemma {:induction false} CollectMeaning(votes: seq<Ballot>, power: map<string, real>, p: int)
    requires AllScorable(votes) && PowerCovers(votes, power)
    ensures Lookup(Collect(votes, power), p) == EntriesFor(votes, power, p)
    ensures p in Collect(votes, power) <==> EntriesFor(votes, power, p) != []
    decreases |votes|
  {
    if votes != [] {
      var n := |votes| - 1;
      CollectMeaning(votes[..n], power, p);
      AddAllLookup(Collect(votes[..n], power), BallotScores(votes[n], power[votes[n].voter]), p);
    }
  }

  predicate PositiveWeights(vs: seq<Vote>)
  {
    forall i :: 0 <= i < |vs| ==> 0.0 < vs[i].weight <= 1.0
  }

  /** Every list in the map is non-empty and carries weights in (0, 1]. */
  predicate WellFormed(per: PerPlayer)
  {
    forall p :: p in per ==> per[p] != [] && PositiveWeights(per[p])
  }

  lemma {:induction false} AddAllWellFormed(m: PerPlayer, ss: seq<Scored>)
    requires WellFormed(m)
    requires forall i :: 0 <= i < |ss| ==> 0.0 < ss[i].vote.weight <= 1.0
    ensures WellFormed(AddAll(m, ss))
    decreases |ss|
  {
    if ss != [] {
      AddAllWellFormed(m, ss[..|ss| - 1]);
    }
  }

  lemma {:induction false} CollectWellFormed(votes: seq<Ballot>, power: map<string, real>)
    requires AllScorable(votes) && PowerCovers(votes, power) && PowerInRange(power)
    ensures WellFormed(Collect(votes, power))
    decreases |votes|
  {
    if votes != [] {
      var n := |votes| - 1;
      CollectWellFormed(votes[..n], power);
      AddAllWellFormed(Collect(votes[..n], power), BallotScores(votes[n], power[votes[n].voter]));
    }
  }

  lemma PrefixScorable(votes: seq<Ballot>, power: map<string, real>, i: nat)
    requires i < |votes| && AllScorable(votes[..i]) && PowerCovers(votes, power)
    requires Scorable(votes[i])
    ensures AllScorable(votes[..i + 1]) && PowerCovers(votes[..i + 1], power)
    ensures Collect(votes[..i + 1], power) ==
      AddAll(Collect(votes[..i], power), BallotScores(votes[i], power[votes[i].voter]))
  {
    assert votes[..i + 1][..i] == votes[..i];
  }

  /** The inner loop of src/ranking.rs:205-208: push each pair onto its player's list. */
  method PushScores(m: PerPlayer, scores: seq<Scored>) returns (perPlayer: PerPlayer)
    ensures perPlayer == AddAll(m, scores)
  {
    perPlayer := m;
    for j := 0 to |scores|
      invariant perPlayer == AddAll(m, scores[..j])
    {
      assert scores[..j + 1][..j] == scores[..j];
      var s := scores[j];
      perPlayer := perPlayer[s.player := Lookup(perPlayer, s.player) + [s.vote]];
    }
    assert scores[..|scores|] == scores;
  }

  /** The accumulation loops of src/ranking.rs:176-210; an over-long vote aborts them. */
  method AccumulateVotesPerPlayer(votes: seq<Ballot>, power: map<string, real>)
    returns (r: Result<PerPlayer, TallyError>)
    requires PowerCovers(votes, power)
    ensures r.Err? <==> !AllScorable(votes)
    ensures r.Ok? ==> AllScorable(votes) && r.value == Collect(votes, power)
  {
    var perPlayer: PerPlayer := map[];
    for i := 0 to |votes|
      invariant AllScorable(votes[..i]) && PowerCovers(votes[..i], power)
      invariant perPlayer == Collect(votes[..i], power)
    {
      var ballot := votes[i];
      if !Scorable(ballot) {
        return Err(ScoreUnderflow);
      }
      PrefixScorable(votes, power, i);
      perPlayer := PushScores(perPlayer, BallotScores(ballot, power[ballot.voter]));
    }
    assert votes[..|votes|] == votes;
    return Ok(perPlayer);
  }

  // ---------------------------------------------------------------------
  // Step 3: weighted mean and standard deviation per player
  // ---------------------------------------------------------------------

  function SumWeighted(vs: seq<Vote>): real
  {
    if vs == [] then 0.0 else vs[0].score * vs[0].weight + SumWeighted(vs[1..])
  }

  function SumWeights(vs: seq<Vote>): real
  {
    if vs == [] then 0.0 else vs[0].weight + SumWeights(vs[1..])
  }

  /** `media`: the weighted mean of the scores. */
  function Mean(vs: seq<Vote>): real
    requires SumWeights(vs) > 0.0
  {
    SumWeighted(vs) / SumWeights(vs)
  }

  function MinScore(vs: seq<Vote>): real
    requires vs != []
  {
    if |vs| == 1 then vs[0].score
    else var m := MinScore(vs[1..]); if vs[0].score <= m then vs[0].score else m
  }

  function MaxScore(vs: seq<Vote>): real
    requires vs != []
  {
    if |vs| == 1 then vs[0].score
    else var m := MaxScore(vs[1..]); if vs[0].score >= m then vs[0].score else m
  }

  function CountPositive(vs: seq<Vote>): nat
  {
    if vs == [] then 0 else (if vs[0].weight > 0.0 then 1 else 0) + CountPositive(vs[1..])
  }

  function SumSquares(vs: seq<Vote>, mean: real): real
  {
    if vs == [] then 0.0
    else (vs[0].score - mean) * (vs[0].score - mean) * vs[0].weight + SumSquares(vs[1..], mean)
  }

  /**
   * The square of `desvio_padrao`: 0 without positive weights; otherwise the
   * weighted squares over ((n - 1) * total weight) / n. A zero denominator is a
   * non-finite `f32` result and a negative quotient a NaN root: both absent.
   */
  function StdDevSquared(vs: seq<Vote>, mean: real): Option<real>
  {
    var n := CountPositive(vs);
    if n == 0 then Some(0.0)
    else
      var denominator := ((n as real - 1.0) * SumWeights(vs)) / n as real;
      if denominator == 0.0 then None
      else
        var q := SumSquares(vs, mean) / denominator;
        if q < 0.0 then None else Some(q)
  }

  lemma {:induction false} SumWeightsPositive(vs: seq<Vote>)
    requires vs != [] && PositiveWeights(vs)
    ensures SumWeights(vs) > 0.0
  {
    if |vs| > 1 {
      SumWeightsPositive(vs[1..]);
    }
  }

  lemma ScaleLe(a: real, b: real, c: real)
    requires a <= b && c >= 0.0
    ensures a * c <= b * c
  {
  }

  /** One step of the lower bound: `lo` bounds the head score and the tail's bound. */
  lemma StepLower(lo: real, s: real, vw: real, m: real, w: real, sw: real)
    requires lo <= s && lo <= m && vw > 0.0 && w >= 0.0 && m * w <= sw
    ensures lo * (vw + w) <= s * vw + sw
  {
    ScaleLe(lo, s, vw);
    ScaleLe(lo, m, w);
  }

  lemma StepUpper(hi: real, s: real, vw: real, m: real, w: real, sw: real)
    requires s <= hi && m <= hi && vw > 0.0 && w >= 0.0 && sw <= m * w
    ensures s * vw + sw <= hi * (vw + w)
  {
    ScaleLe(s, hi, vw);
    ScaleLe(m, hi, w);
  }

  lemma {:induction false} SumAtLeast(vs: seq<Vote>)
    requires vs != [] && PositiveWeights(vs)
    ensures MinScore(vs) * SumWeights(vs) <= SumWeighted(vs)
  {
    if |vs| > 1 {
      var rest := vs[1..];
      SumAtLeast(rest);
      SumWeightsPositive(rest);
      StepLower(MinScore(vs), vs[0].score, vs[0].weight, MinScore(rest), SumWeights(rest), SumWeighted(rest));
    } else {
      assert vs[1..] == [];
    }
  }

  lemma {:induction false} SumAtMost(vs: seq<Vote>)
    requires vs != [] && PositiveWeights(vs)
    ensures SumWeighted(vs) <= MaxScore(vs) * SumWeights(vs)
  {
    if |vs| > 1 {
      var rest := vs[1..];
      SumAtMost(rest);
      SumWeightsPositive(rest);
      StepUpper(MaxScore(vs), vs[0].score, vs[0].weight, MaxScore(rest), SumWeights(rest), SumWeighted(rest));
    } else {
      assert vs[1..] == [];
    }
  }

  lemma DivAtLeast(lo: real, sw: real, w: real)
    requires w > 0.0 && lo * w <= sw
    ensures lo <= sw / w
  {
    assert (sw / w) * w == sw;
  }

  lemma DivAtMost(hi: real, sw: real, w: real)
    requires w > 0.0 && sw <= hi * w
    ensures sw / w <= hi
  {
    assert (sw / w) * w == sw;
  }

  /** The weighted mean lies between the smallest and the largest score. */
  lemma MeanBetween(vs: seq<Vote>)
    requires vs != [] && PositiveWeights(vs)
    ensures SumWeights(vs) > 0.0
    ensures MinScore(vs) <= Mean(vs) <= MaxScore(vs)
  {
    SumWeightsPositive(vs);
    MeanAtLeast(vs);
    MeanAtMost(vs);
  }

  lemma MeanAtLeast(vs: seq<Vote>)
    requires vs != [] && PositiveWeights(vs) && SumWeights(vs) > 0.0
    ensures MinScore(vs) <= Mean(vs)
  {
    SumAtLeast(vs);
    DivAtLeast(MinScore(vs), SumWeighted(vs), SumWeights(vs));
  }

  lemma MeanAtMost(vs: seq<Vote>)
    requires vs != [] && PositiveWeights(vs) && SumWeights(vs) > 0.0
    ensures Mean(vs) <= MaxScore(vs)
  {
    SumAtMost(vs);
    DivAtMost(MaxScore(vs), SumWeighted(vs), SumWeights(vs));
  }

  lemma {:induction false} CountPositiveAll(vs: seq<Vote>)
    requires PositiveWeights(vs)
    ensures CountPositive(vs) == |vs|
  {
    if vs != [] {
      CountPositiveAll(vs[1..]);
    }
  }

  lemma {:induction false} SumSquaresNonNegative(vs: seq<Vote>, mean: real)
    requires PositiveWeights(vs)
    ensures SumSquares(vs, mean) >= 0.0
  {
    if vs != [] {
      SumSquaresNonNegative(vs[1..], mean);
      var d := vs[0].score - mean;
      assert d * d >= 0.0;
      assert d * d * vs[0].weight >= 0.0;
    }
  }

  /** With positive weights the deviation is absent exactly for a single pair. */
  lemma StdDevAbsentIff(vs: seq<Vote>, mean: real)
    requires vs != [] && PositiveWeights(vs)
    ensures StdDevSquared(vs, mean).None? <==> |vs| == 1
  {
    CountPositiveAll(vs);
    SumWeightsPositive(vs);
    SumSquaresNonNegative(vs, mean);
    var n := |vs| as real;
    var w := SumWeights(vs);
    if |vs| > 1 {
      assert (n - 1.0) * w > 0.0;
      assert ((n - 1.0) * w) / n > 0.0;
    }
  }

  // ---------------------------------------------------------------------
  // Step 4: the ranking
  // ---------------------------------------------------------------------

  /** Every list in the map has a positive total weight, so its mean is defined. */
  predicate Summable(per: PerPlayer)
  {
    forall p :: p in per ==> SumWeights(per[p]) > 0.0
  }

  lemma WellFormedSummable(per: PerPlayer)
    requires WellFormed(per)
    ensures Summable(per)
  {
    forall p | p in per ensures SumWeights(per[p]) > 0.0 {
      SumWeightsPositive(per[p]);
    }
  }

  /** The entry of a player with pairs `vs`, before it gets its position. */
  function EntryFor(p: Jogador, vs: seq<Vote>): RankingEntry
    requires SumWeights(vs) > 0.0
  {
    var m := Mean(vs);
    RankingEntry(0, p.id, p.nome, m, |vs|, StdDevSquared(vs, m))
  }

  /** `players_mentioned`: the roster players that received a pair, in roster order. */
  function Mentioned(roster: seq<Jogador>, per: PerPlayer): seq<RankingEntry>
    requires Summable(per)
  {
    if roster == [] then []
    else
      (if roster[0].id in per then [EntryFor(roster[0], per[roster[0].id])] else [])
      + Mentioned(roster[1..], per)
  }

  lemma {:induction false} MentionedMembers(roster: seq<Jogador>, per: PerPlayer)
    requires Summable(per)
    ensures forall e :: e in Mentioned(roster, per) <==>
      exists k :: 0 <= k < |roster| && roster[k].id in per && e == EntryFor(roster[k], per[roster[k].id])
  {
    if roster != [] {
      MentionedMembers(roster[1..], per);
      forall e | e in Mentioned(roster, per)
        ensures exists k :: 0 <= k < |roster| && roster[k].id in per && e == EntryFor(roster[k], per[roster[k].id])
      {
        if !(roster[0].id in per && e == EntryFor(roster[0], per[roster[0].id])) {
          assert e in Mentioned(roster[1..], per);
          var k :| 0 <= k < |roster[1..]| && roster[1..][k].id in per
            && e == EntryFor(roster[1..][k], per[roster[1..][k].id]);
          assert roster[k + 1] == roster[1..][k];
        }
      }
      forall k | 0 <= k < |roster| && roster[k].id in per
        ensures EntryFor(roster[k], per[roster[k].id]) in Mentioned(roster, per)
      {
        if k > 0 {
          assert roster[1..][k - 1] == roster[k];
        }
      }
    }
  }

  function Media(e: RankingEntry): real
  {
    e.media
  }

  function NegPos(e: RankingEntry): real
  {
    -(e.pos as real)
  }

  /** The entries with `pos` set to 1, 2, ... in list order. */
  function WithPositions(s: seq<RankingEntry>): seq<RankingEntry>
  {
    seq(|s|, i requires 0 <= i < |s| => s[i].(pos := i + 1))
  }

  /** The entries with their positions cleared again. */
  function Unpositioned(s: seq<RankingEntry>): seq<RankingEntry>
  {
    seq(|s|, i requires 0 <= i < |s| => s[i].(pos := 0))
  }

  /** The position loop of src/ranking.rs:256-258, over the entries in ranked order. */
  method AssignPositions(ranked: seq<RankingEntry>) returns (r: seq<RankingEntry>)
    ensures |r| == |ranked|
    ensures forall i :: 0 <= i < |r| ==> r[i] == ranked[i].(pos := i + 1)
    ensures r == WithPositions(ranked)
  {
    r := ranked;
    for i := 0 to |r|
      invariant |r| == |ranked|
      invariant forall k :: 0 <= k < i ==> r[k] == ranked[k].(pos := k + 1)
      invariant forall k :: i <= k < |r| ==> r[k] == ranked[k]
    {
      r := r[i := r[i].(pos := i + 1)];
    }
  }

  /** `vote_power` for `votes`: it covers every voter, each with a weight in (0, 1]. */
  function Power(votes: seq<Ballot>): (power: map<string, real>)
    ensures PowerCovers(votes, power) && PowerInRange(power)
  {
    VotePowerBounds(votes);
    VotePower(VoterCounts(votes))
  }

  /** The pairs of every player: each list non-empty, with weights in (0, 1]. */
  function PerPlayerOf(votes: seq<Ballot>): (per: PerPlayer)
    requires AllScorable(votes)
    ensures WellFormed(per) && Summable(per)
  {
    CollectWellFormed(votes, Power(votes));
    WellFormedSummable(Collect(votes, Power(votes)));
    Collect(votes, Power(votes))
  }

  /** The mentioned players ordered by descending mean. */
  function Ranked(votes: seq<Ballot>, roster: seq<Jogador>): seq<RankingEntry>
    requires AllScorable(votes)
  {
    SortBy(Mentioned(roster, PerPlayerOf(votes)), Media)
  }

  /** What `calculate_ranking` produces from the selected ballots and the roster. */
  function RankingOf(votes: seq<Ballot>, roster: seq<Jogador>, now: int): Result<Ranking, TallyError>
  {
    if !AllScorable(votes) then Err(ScoreUnderflow)
    else Ok(Ranking(SortBy(WithPositions(Ranked(votes, roster)), NegPos), now, |votes|))
  }

  /** The computation of src/ranking.rs:143-269 on the selected ballots. */
  method TallyVotes(votes: seq<Ballot>, roster: seq<Jogador>, now: int)
    returns (r: Result<Ranking, TallyError>)
    ensures r == RankingOf(votes, roster, now)
  {
    var counts := CountVotesPerVoter(votes);
    var power := VotePower(counts);
    assert power == Power(votes);
    var perPlayer := AccumulateVotesPerPlayer(votes, power);
    if perPlayer.Err? {
      assert RankingOf(votes, roster, now) == Err(ScoreUnderflow);
      r := Err(ScoreUnderflow);
      return;
    }
    ghost var per := PerPlayerOf(votes);
    assert perPlayer.value == per;
    var sorted := SortBy(Mentioned(roster, perPlayer.value), Media);
    var ranked := AssignPositions(sorted);
    var entries := SortBy(ranked, NegPos);
    TallySteps(votes, roster, now, perPlayer.value);
    assert ranked == WithPositions(sorted);
    assert entries == SortBy(WithPositions(sorted), NegPos);
    r := Ok(Ranking(entries, now, |votes|));
    assert r == Ok(Ranking(SortBy(WithPositions(sorted), NegPos), now, |votes|));
  }

  /** The steps of `TallyVotes`, once the per-player lists are built, compose to `RankingOf`. */
  lemma TallySteps(votes: seq<Ballot>, roster: seq<Jogador>, now: int, per: PerPlayer)
    requires AllScorable(votes) && per == PerPlayerOf(votes)
    ensures RankingOf(votes, roster, now) == Ok(Ranking(SortBy(WithPositions(SortBy(Mentioned(roster, per), Media)), NegPos), now, |votes|))
  {
  }

  // ---------------------------------------------------------------------
  // What the ranking promises
  // ---------------------------------------------------------------------

  /**
   * The final sort by `pos` (src/ranking.rs:260-263) leaves the ranked entries
   * where they are, since positions were handed out in that order.
   */
  lemma PositionsAscending(s: seq<RankingEntry>)
    ensures SortBy(WithPositions(s), NegPos) == WithPositions(s)
  {
    SortedIsFixed(WithPositions(s), NegPos);
  }

  lemma RankingEntries(votes: seq<Ballot>, roster: seq<Jogador>, now: int)
    requires AllScorable(votes)
    ensures RankingOf(votes, roster, now) == Ok(Ranking(WithPositions(Ranked(votes, roster)), now, |votes|))
  {
    PositionsAscending(Ranked(votes, roster));
  }

  lemma {:induction false} MentionedUnpositioned(roster: seq<Jogador>, per: PerPlayer)
    requires Summable(per)
    ensures forall e :: e in Mentioned(roster, per) ==> e.pos == 0
  {
    if roster != [] {
      MentionedUnpositioned(roster[1..], per);
    }
  }

  /** The ranked entries are the mentioned ones reordered, all still without a position. */
  lemma RankedSpec(votes: seq<Ballot>, roster: seq<Jogador>)
    requires AllScorable(votes)
    ensures var mentioned := Mentioned(roster, PerPlayerOf(votes));
      var ranked := Ranked(votes, roster);
      && SortedBy(ranked, Media)
      && multiset(ranked) == multiset(mentioned)
      && (forall m :: WithKey(ranked, Media, m) == WithKey(mentioned, Media, m))
      && Unpositioned(WithPositions(ranked)) == ranked
  {
    var mentioned := Mentioned(roster, PerPlayerOf(votes));
    var ranked := Ranked(votes, roster);
    SortBySpec(mentioned, Media);
    MentionedUnpositioned(roster, PerPlayerOf(votes));
    forall i | 0 <= i < |ranked| ensures ranked[i].pos == 0 {
      assert ranked[i] in multiset(mentioned);
    }
  }

  /**
   * A tally succeeds exactly when no vote ranks more than five players. Its
   * entries then carry positions 1..N in list order, have non-increasing means,
   * are a permutation of the mentioned roster players, keep the roster order
   * among equal means, and `votes` counts every ballot examined.
   */
  lemma RankingShape(votes: seq<Ballot>, roster: seq<Jogador>, now: int)
    ensures RankingOf(votes, roster, now).Ok? <==> AllScorable(votes)
    ensures AllScorable(votes) ==>
      var r := RankingOf(votes, roster, now).value;
      var mentioned := Mentioned(roster, PerPlayerOf(votes));
      && r.votes == |votes| && r.timestamp == now
      && (forall i :: 0 <= i < |r.entries| ==> r.entries[i].pos == i + 1)
      && SortedBy(r.entries, Media)
      && multiset(Unpositioned(r.entries)) == multiset(mentioned)
      && (forall m :: WithKey(Unpositioned(r.entries), Media, m) == WithKey(mentioned, Media, m))
  {
    if AllScorable(votes) {
      RankingEntries(votes, roster, now);
      RankedSpec(votes, roster);
      var ranked := Ranked(votes, roster);
      var entries := WithPositions(ranked);
      assert SortedBy(entries, Media) by {
        forall i, j | 0 <= i < j < |entries| ensures Media(entries[i]) >= Media(entries[j]) {
          assert Media(ranked[i]) >= Media(ranked[j]);
        }
      }
    }
  }

  /** What one mentioned entry says about its player. */
  lemma MentionedMeaning(votes: seq<Ballot>, roster: seq<Jogador>, e: RankingEntry)
    requires AllScorable(votes)
    requires e in Mentioned(roster, PerPlayerOf(votes))
    ensures var vs := EntriesFor(votes, Power(votes), e.id);
      && (exists k :: 0 <= k < |roster| && roster[k].id == e.id && roster[k].nome == e.nome)
      && e.votos == |vs| && vs != []
      && SumWeights(vs) > 0.0 && e.media == Mean(vs) && e.variance == StdDevSquared(vs, e.media)
      && MinScore(vs) <= e.media <= MaxScore(vs)
      && (e.variance.None? <==> e.votos == 1)
  {
    var per := PerPlayerOf(votes);
    MentionedMembers(roster, per);
    var k :| 0 <= k < |roster| && roster[k].id in per && e == EntryFor(roster[k], per[roster[k].id]);
    CollectMeaning(votes, Power(votes), e.id);
    MeanBetween(per[e.id]);
    StdDevAbsentIff(per[e.id], Mean(per[e.id]));
  }

  /**
   * Each entry belongs to a roster player, its `votos` is the number of pairs
   * the ballots gave that player, its mean and deviation are the weighted mean
   * and deviation of exactly those pairs, the mean lies between their lowest
   * and highest score, and the deviation is absent exactly when `votos` is 1.
   */
  lemma EntryMeaning(votes: seq<Ballot>, roster: seq<Jogador>, now: int, i: nat)
    requires AllScorable(votes)
    requires i < |RankingOf(votes, roster, now).value.entries|
    ensures var e := RankingOf(votes, roster, now).value.entries[i];
      var vs := EntriesFor(votes, Power(votes), e.id);
      && (exists k :: 0 <= k < |roster| && roster[k].id == e.id && roster[k].nome == e.nome)
      && e.votos == |vs| && vs != []
      && SumWeights(vs) > 0.0 && e.media == Mean(vs) && e.variance == StdDevSquared(vs, e.media)
      && MinScore(vs) <= e.media <= MaxScore(vs)
      && (e.variance.None? <==> e.votos == 1)
  {
    RankingEntries(votes, roster, now);
    RankedSpec(votes, roster);
    var ranked := Ranked(votes, roster);
    assert ranked[i] in multiset(Mentioned(roster, PerPlayerOf(votes)));
    MentionedMeaning(votes, roster, ranked[i]);
  }

  /** Every roster player who received at least one pair appears in the ranking. */
  lemma EveryScoredPlayerRanked(votes: seq<Ballot>, roster: seq<Jogador>, now: int, k: nat)
    requires AllScorable(votes) && k < |roster|
    requires EntriesFor(votes, Power(votes), roster[k].id) != []
    ensures exists i ::
      && 0 <= i < |RankingOf(votes, roster, now).value.entries|
      && RankingOf(votes, roster, now).value.entries[i].id == roster[k].id
  {
    var per := PerPlayerOf(votes);
    var ranked := Ranked(votes, roster);
    var mentioned := Mentioned(roster, per);
    RankingEntries(votes, roster, now);
    RankedSpec(votes, roster);
    CollectMeaning(votes, Power(votes), roster[k].id);
    assert roster[k].id in per;
    MentionedMembers(roster, per);
    var e := EntryFor(roster[k], per[roster[k].id]);
    assert e in mentioned;
    assert e in multiset(ranked);
    var i :| 0 <= i < |ranked| && ranked[i] == e;
    assert WithPositions(ranked)[i].id == roster[k].id;
  }
}
