/**
 * Closing a week and memoizing its result (`prepare_apurar`,
 * `calculate_ranking`, `apurar_complete` and `get_or_create_apuracao` in
 * src/ranking.rs). The `apuracao` row of a week goes from absent to
 * `Started` to `Complete`; a row left `Started` by a failed tally stays so.
 */
module Apuracao {
  import opened Timings
  import opened Entities
  import opened Tally
  import opened Store

  datatype ApuracaoError =
    | DuplicateKey              // the insert hit the unique `week_id` or `random_id`
    | NotComplete               // "Apuração não está completa"
    | TallyFailed(e: TallyError)

  /** What `prepare_apurar(id)` does to one ballot. */
  function CloseIfOfWeek(b: Ballot, id: I32): Ballot
  {
    if b.state == Open && b.futeId == id then b.(state := Closed) else b
  }

  /** The ballot table after `prepare_apurar(id)`. */
  function CloseWeek(bs: seq<Ballot>, id: I32): seq<Ballot>
  {
    if bs == [] then [] else CloseWeek(bs[..|bs| - 1], id) + [CloseIfOfWeek(bs[|bs| - 1], id)]
  }

  /** The ballots of week `id`, in storage order. */
  function OfWeek(bs: seq<Ballot>, id: I32): seq<Ballot>
  {
    if bs == [] then []
    else OfWeek(bs[..|bs| - 1], id) + (if bs[|bs| - 1].futeId == id then [bs[|bs| - 1]] else [])
  }

  /** The query of `calculate_ranking`: closed ballots whose `fute_id` is `id`. */
  function ClosedOfWeek(bs: seq<Ballot>, id: I32): seq<Ballot>
  {
    if bs == [] then []
    else
      var b := bs[|bs| - 1];
      ClosedOfWeek(bs[..|bs| - 1], id) + (if b.state == Closed && b.futeId == id then [b] else [])
  }

  /** What `apurar_complete` reports for the outcome of the tally. */
  function Reported(t: Result<Ranking, TallyError>): Result<Ranking, ApuracaoError>
  {
    match t
    case Ok(ranking) => Ok(ranking)
    case Err(e) => Err(TallyFailed(e))
  }

  /**
   * The row `apurar_complete` leaves once it has reported `r`: complete with
   * the ranking, or still started with the empty ranking it was inserted with.
   */
  function FinalRow(randId: I32, now: int, r: Result<Ranking, ApuracaoError>): ApuracaoRow
  {
    if r.Ok? then ApuracaoRow(randId, Complete, r.value) else ApuracaoRow(randId, Started, Ranking([], now, 0))
  }

  lemma {:induction false} CloseWeekPointwise(bs: seq<Ballot>, id: I32)
    ensures |CloseWeek(bs, id)| == |bs|
    ensures forall i :: 0 <= i < |bs| ==> CloseWeek(bs, id)[i] == CloseIfOfWeek(bs[i], id)
  {
    if bs != [] {
      CloseWeekPointwise(bs[..|bs| - 1], id);
    }
  }

  /**
   * After `prepare_apurar(id)` no ballot of week `id` is open; ballots of other
   * weeks are untouched, and no ballot changes anything but its state.
   */
  lemma PreparedWeek(bs: seq<Ballot>, id: I32)
    ensures |CloseWeek(bs, id)| == |bs|
    ensures forall i :: 0 <= i < |bs| && CloseWeek(bs, id)[i].futeId == id ==> CloseWeek(bs, id)[i].state == Closed
    ensures forall i :: 0 <= i < |bs| && bs[i].futeId != id ==> CloseWeek(bs, id)[i] == bs[i]
    ensures forall i :: 0 <= i < |bs| ==> CloseWeek(bs, id)[i] == bs[i].(state := CloseWeek(bs, id)[i].state)
    ensures forall i :: 0 <= i < |bs| ==>
      (CloseWeek(bs, id)[i].state == Closed <==> bs[i].state == Closed || bs[i].futeId == id)
  {
    CloseWeekPointwise(bs, id);
  }

  /** Closing a week twice is closing it once. */
  lemma CloseWeekIdempotent(bs: seq<Ballot>, id: I32)
    ensures CloseWeek(CloseWeek(bs, id), id) == CloseWeek(bs, id)
  {
    var r := CloseWeek(bs, id);
    CloseWeekPointwise(bs, id);
    CloseWeekPointwise(r, id);
    assert forall i :: 0 <= i < |r| ==> CloseWeek(r, id)[i] == r[i];
  }

  /** Closing ballots keeps the ballot-table invariants. */
  lemma CloseWeekKeepsInvariants(bs: seq<Ballot>, id: I32)
    requires BallotIdsDistinct(bs) && OneOpenPerWeek(bs)
    ensures BallotIdsDistinct(CloseWeek(bs, id)) && OneOpenPerWeek(CloseWeek(bs, id))
    ensures |CloseWeek(bs, id)| == |bs|
    ensures forall i :: 0 <= i < |bs| ==> CloseWeek(bs, id)[i].id == bs[i].id
  {
    PreparedWeek(bs, id);
    var r := CloseWeek(bs, id);
    forall i, j | 0 <= i < j < |r| && r[i].state == Open
      ensures !OpenFor(r[j], r[i].voter, r[i].futeId)
    {
      assert r[i] == bs[i];
      if r[j].state == Open {
        assert r[j] == bs[j];
      }
    }
  }

  /**
   * Once week `id` is prepared, the tally's query returns every ballot of that
   * week, in storage order, each one closed: ballots that were never voted on
   * are counted too, with their empty vote.
   */
  lemma {:induction false} TallySeesWholeWeek(bs: seq<Ballot>, id: I32)
    ensures ClosedOfWeek(CloseWeek(bs, id), id) == CloseWeek(OfWeek(bs, id), id)
    ensures |ClosedOfWeek(CloseWeek(bs, id), id)| == |OfWeek(bs, id)|
  {
    if bs != [] {
      var init, last := bs[..|bs| - 1], bs[|bs| - 1];
      TallySeesWholeWeek(init, id);
      var c := CloseIfOfWeek(last, id);
      var closed := CloseWeek(init, id);
      assert (closed + [c])[..|closed|] == closed && (closed + [c])[|closed|] == c;
      assert ClosedOfWeek(CloseWeek(bs, id), id)
        == ClosedOfWeek(CloseWeek(init, id), id) + (if c.state == Closed && c.futeId == id then [c] else []);
      if last.futeId == id {
        var ofWeek := OfWeek(init, id);
        assert (ofWeek + [last])[..|ofWeek|] == ofWeek && (ofWeek + [last])[|ofWeek|] == last;
        assert OfWeek(bs, id) == OfWeek(init, id) + [last];
        assert CloseWeek(OfWeek(bs, id), id) == CloseWeek(OfWeek(init, id), id) + [c];
      } else {
        assert OfWeek(bs, id) == OfWeek(init, id);
      }
      CloseWeekPointwise(OfWeek(bs, id), id);
    }
  }

  /** `prepare_apurar`: close every open ballot of week `id`, one row at a time. */
  method PrepareApurar(db: Database, id: I32)
    requires db.Valid()
    modifies db
    ensures db.Valid()
    ensures db.ballots == CloseWeek(old(db.ballots), id)
    ensures db.jogadores == old(db.jogadores) && db.listaExtra == old(db.listaExtra)
    ensures db.apuracoes == old(db.apuracoes) && db.nextBallotId == old(db.nextBallotId)
  {
    ghost var bs := db.ballots;
    CloseWeekPointwise(bs, id);
    for i := 0 to |db.ballots|
      invariant |db.ballots| == |bs|
      invariant forall j :: 0 <= j < i ==> db.ballots[j] == CloseIfOfWeek(bs[j], id)
      invariant forall j :: i <= j < |bs| ==> db.ballots[j] == bs[j]
      invariant db.jogadores == old(db.jogadores) && db.listaExtra == old(db.listaExtra)
      invariant db.apuracoes == old(db.apuracoes) && db.nextBallotId == old(db.nextBallotId)
    {
      var b := db.ballots[i];
      if b.state == Open && b.futeId == id {
        db.ballots := db.ballots[i := b.(state := Closed)];
      }
    }
    assert db.ballots == CloseWeek(bs, id);
    CloseWeekKeepsInvariants(bs, id);
  }

  /** `calculate_ranking(id)`: the tally of the closed ballots of week `id`. */
  method CalculateRanking(db: Database, id: I32, now: int) returns (r: Result<Ranking, TallyError>)
    ensures r == RankingOf(ClosedOfWeek(db.ballots, id), db.jogadores, now)
  {
    var votes := ClosedOfWeek(db.ballots, id);
    r := TallyVotes(votes, db.jogadores, now);
  }

  /**
   * `apurar_complete(id)`: insert a `Started` row (which fails on a taken week
   * id or random id), close the week, tally it, and store the result as
   * `Complete`. When the tally fails, the row stays `Started`.
   */
  method ApurarComplete(db: Database, id: I32, randId: I32, now: int)
    returns (r: Result<Ranking, ApuracaoError>)
    requires db.Valid()
    modifies db
    ensures db.Valid()
    ensures db.jogadores == old(db.jogadores) && db.listaExtra == old(db.listaExtra)
    ensures db.nextBallotId == old(db.nextBallotId)
    ensures id in old(db.apuracoes) || RandomIdTaken(old(db.apuracoes), randId) ==>
      r == Err(DuplicateKey) && db.ballots == old(db.ballots) && db.apuracoes == old(db.apuracoes)
    ensures !(id in old(db.apuracoes) || RandomIdTaken(old(db.apuracoes), randId)) ==>
      && db.ballots == CloseWeek(old(db.ballots), id)
      && r == Reported(RankingOf(ClosedOfWeek(db.ballots, id), db.jogadores, now))
      && db.apuracoes == old(db.apuracoes)[id := FinalRow(randId, now, r)]
  {
    var started := ApuracaoRow(randId, Started, Ranking([], now, 0));
    var inserted := db.InsertApuracao(id, started);
    if !inserted {
      return Err(DuplicateKey);
    }
    PrepareApurar(db, id);
    var t := CalculateRanking(db, id, now);
    if t.Err? {
      return Err(TallyFailed(t.error));
    }
    var complete := ApuracaoRow(randId, Complete, t.value);
    db.UpdateApuracao(id, complete);
    OverwriteTwice(old(db.apuracoes), id, started, complete);
    r := Ok(t.value);
  }

  /**
   * `get_or_create_apuracao(id)`: a complete row's stored results, an error for
   * a row that is not complete, or a fresh `apurar_complete` when there is none.
   */
  method GetOrCreateApuracao(db: Database, id: I32, randId: I32, now: int)
    returns (r: Result<Ranking, ApuracaoError>)
    requires db.Valid()
    modifies db
    ensures db.Valid()
    ensures db.jogadores == old(db.jogadores) && db.listaExtra == old(db.listaExtra)
    ensures db.nextBallotId == old(db.nextBallotId)
    ensures id in old(db.apuracoes) && old(db.apuracoes)[id].state == Complete ==>
      r == Ok(old(db.apuracoes)[id].results) && db.ballots == old(db.ballots) && db.apuracoes == old(db.apuracoes)
    ensures id in old(db.apuracoes) && old(db.apuracoes)[id].state != Complete ==>
      r == Err(NotComplete) && db.ballots == old(db.ballots) && db.apuracoes == old(db.apuracoes)
    ensures id !in old(db.apuracoes) && RandomIdTaken(old(db.apuracoes), randId) ==>
      r == Err(DuplicateKey) && db.ballots == old(db.ballots) && db.apuracoes == old(db.apuracoes)
    ensures id !in old(db.apuracoes) && !RandomIdTaken(old(db.apuracoes), randId) ==>
      && db.ballots == CloseWeek(old(db.ballots), id)
      && r == Reported(RankingOf(ClosedOfWeek(db.ballots, id), db.jogadores, now))
      && db.apuracoes == old(db.apuracoes)[id := FinalRow(randId, now, r)]
  {
    if id in db.apuracoes {
      var row := db.apuracoes[id];
      if row.state != Complete {
        return Err(NotComplete);
      }
      return Ok(row.results);
    }
    r := ApurarComplete(db, id, randId, now);
  }

  /**
   * Once a week has a row, asking again returns the same answer and changes
   * nothing: unless the first request hit a taken random id, the tables after
   * both requests are the ones the first request left.
   */
  method AskTwice(db: Database, id: I32, rid1: I32, rid2: I32, now1: int, now2: int)
    returns (r1: Result<Ranking, ApuracaoError>, r2: Result<Ranking, ApuracaoError>)
    requires db.Valid()
    modifies db
    ensures r1.Ok? ==> r2 == r1
    ensures r1 == Err(NotComplete) || (r1.Err? && r1.error.TallyFailed?) ==> r2 == Err(NotComplete)
    ensures r1 != Err(DuplicateKey) && id in old(db.apuracoes) ==>
      db.ballots == old(db.ballots) && db.apuracoes == old(db.apuracoes)
    ensures r1 != Err(DuplicateKey) && id !in old(db.apuracoes) ==>
      && db.ballots == CloseWeek(old(db.ballots), id)
      && db.apuracoes == old(db.apuracoes)[id := FinalRow(rid1, now1, r1)]
  {
    r1 := GetOrCreateApuracao(db, id, rid1, now1);
    ghost var between := db.apuracoes;
    r2 := GetOrCreateApuracao(db, id, rid2, now2);
    if r1.Ok? {
      assert id in between && between[id].state == Complete;
    }
  }
}
