/**
 * The application's database, as one mutable object holding its tables.
 * Each table is a sequence of rows in storage order, except `apuracao`, whose
 * `week_id` column is unique and which is therefore a map keyed by week id.
 */
module Store {
  import opened Timings
  import opened Entities
  import opened Tally

  /** The `apuracao.state` column: the code writes "started" and "complete". */
  datatype ApuracaoState = Started | Complete

  /** One row of `apuracao`, without its key and its auto-increment id. */
  datatype ApuracaoRow = ApuracaoRow(randomId: I32, state: ApuracaoState, results: Ranking)

  /** The primary key of `ballot`. */
  predicate BallotIdsDistinct(bs: seq<Ballot>)
  {
    forall i, j :: 0 <= i < j < |bs| ==> bs[i].id != bs[j].id
  }

  /** The primary key of `jogador`. */
  predicate JogadorIdsDistinct(js: seq<Jogador>)
  {
    forall i, j :: 0 <= i < j < |js| ==> js[i].id != js[j].id
  }

  /** The ballot at `b` is an open ballot of `voter` for week `week`. */
  predicate OpenFor(b: Ballot, voter: string, week: I32)
  {
    b.state == Open && b.voter == voter && b.futeId == week
  }

  /**
   * No voter holds two open ballots for the same week: `voting_create` looks
   * for one before inserting another.
   */
  predicate OneOpenPerWeek(bs: seq<Ballot>)
  {
    forall i, j :: 0 <= i < j < |bs| && bs[i].state == Open ==> !OpenFor(bs[j], bs[i].voter, bs[i].futeId)
  }

  /** The unique `random_id` column. */
  predicate RandomIdsDistinct(rows: map<I32, ApuracaoRow>)
  {
    forall w1, w2 :: w1 in rows && w2 in rows && w1 != w2 ==> rows[w1].randomId != rows[w2].randomId
  }

  /** There is a row with random id `rid`. */
  predicate RandomIdTaken(rows: map<I32, ApuracaoRow>, rid: I32)
  {
    exists w :: w in rows && rows[w].randomId == rid
  }

  /**
   * A law of map update, stated for the `apuracao` table: storing twice under
   * one key keeps only the second row. Used as a proof step where the row is
   * first inserted and then saved again.
   */
  lemma OverwriteTwice(rows: map<I32, ApuracaoRow>, id: I32, first: ApuracaoRow, second: ApuracaoRow)
    ensures rows[id := first][id := second] == rows[id := second]
  {
  }

  /** Appending a fresh-keyed open ballot, when its voter has none for that week, keeps the table invariants. */
  lemma InsertKeepsTable(bs: seq<Ballot>, b: Ballot, next: int)
    requires BallotIdsDistinct(bs) && OneOpenPerWeek(bs)
    requires forall i :: 0 <= i < |bs| ==> bs[i].id < next
    requires b.id == next
    requires forall i :: 0 <= i < |bs| ==> !OpenFor(bs[i], b.voter, b.futeId)
    ensures BallotIdsDistinct(bs + [b]) && OneOpenPerWeek(bs + [b])
    ensures forall i :: 0 <= i < |bs + [b]| ==> (bs + [b])[i].id < next + 1
  {
    var r := bs + [b];
    forall i, j | 0 <= i < j < |r| && r[i].state == Open
      ensures !OpenFor(r[j], r[i].voter, r[i].futeId)
    {
      if j == |bs| {
        assert r[i] == bs[i];
      }
    }
  }

  class Database {
    var ballots: seq<Ballot>
    var jogadores: seq<Jogador>
    var listaExtra: seq<ListaExtra>
    var apuracoes: map<I32, ApuracaoRow>
    /** The next value of the ballot table's auto-increment key. */
    var nextBallotId: int

    /** The table constraints, and the one-open-ballot rule the handlers keep. */
    ghost predicate Valid()
      reads this
    {
      && BallotIdsDistinct(ballots)
      && (forall i :: 0 <= i < |ballots| ==> ballots[i].id < nextBallotId)
      && OneOpenPerWeek(ballots)
      && JogadorIdsDistinct(jogadores)
      && RandomIdsDistinct(apuracoes)
    }

    /** A database holding the given players and extra-list rows and nothing else. */
    constructor (players: seq<Jogador>, extras: seq<ListaExtra>)
      requires JogadorIdsDistinct(players)
      ensures Valid()
      ensures ballots == [] && jogadores == players && listaExtra == extras && apuracoes == map[]
    {
      ballots := [];
      jogadores := players;
      listaExtra := extras;
      apuracoes := map[];
      nextBallotId := 1;
    }

    /** `Ballot::find_by_id`: the position of the ballot with key `id`, if any. */
    method FindBallot(id: int) returns (k: Option<nat>)
      requires Valid()
      ensures k.Some? ==> k.value < |ballots| && ballots[k.value].id == id
      ensures k.Some? ==> forall i :: 0 <= i < |ballots| && ballots[i].id == id ==> i == k.value
      ensures k.None? <==> forall i :: 0 <= i < |ballots| ==> ballots[i].id != id
    {
      for i := 0 to |ballots|
        invariant forall j :: 0 <= j < i ==> ballots[j].id != id
      {
        if ballots[i].id == id {
          return Some(i);
        }
      }
      return None;
    }

    /**
     * The open ballot of `voter` for week `week`, if any (the query at the start
     * of `voting_create`). There is at most one, so which row `.one()` picks
     * does not matter.
     */
    method FindOpen(voter: string, week: I32) returns (k: Option<nat>)
      requires Valid()
      ensures k.Some? ==> k.value < |ballots| && OpenFor(ballots[k.value], voter, week)
      ensures k.Some? ==> forall i :: 0 <= i < |ballots| && OpenFor(ballots[i], voter, week) ==> i == k.value
      ensures k.None? <==> forall i :: 0 <= i < |ballots| ==> !OpenFor(ballots[i], voter, week)
    {
      for i := 0 to |ballots|
        invariant forall j :: 0 <= j < i ==> !OpenFor(ballots[j], voter, week)
      {
        if OpenFor(ballots[i], voter, week) {
          return Some(i);
        }
      }
      return None;
    }

    /**
     * Insert `b` into the ballot table. The auto-increment key overrides
     * `b.id`: the row gets `nextBallotId`, which is returned and advanced.
     * The voter must have no open ballot for that week.
     */
    method InsertBallot(b: Ballot) returns (id: int)
      requires Valid()
      requires forall i :: 0 <= i < |ballots| ==> !OpenFor(ballots[i], b.voter, b.futeId)
      modifies this
      ensures Valid()
      ensures id == old(nextBallotId) && nextBallotId == id + 1
      ensures ballots == old(ballots) + [b.(id := id)]
      ensures jogadores == old(jogadores) && listaExtra == old(listaExtra) && apuracoes == old(apuracoes)
    {
      id := nextBallotId;
      InsertKeepsTable(ballots, b.(id := id), id);
      ballots := ballots + [b.(id := id)];
      nextBallotId := id + 1;
    }

    /**
     * Insert `row` as the `apuracao` row of week `id`. The insert fails, and
     * nothing changes, when the week or the row's random id already has a row.
     */
    method InsertApuracao(id: I32, row: ApuracaoRow) returns (inserted: bool)
      requires Valid()
      modifies this
      ensures Valid()
      ensures inserted <==> id !in old(apuracoes) && !RandomIdTaken(old(apuracoes), row.randomId)
      ensures apuracoes == if inserted then old(apuracoes)[id := row] else old(apuracoes)
      ensures ballots == old(ballots) && jogadores == old(jogadores) && listaExtra == old(listaExtra)
      ensures nextBallotId == old(nextBallotId)
    {
      if id in apuracoes || RandomIdTaken(apuracoes, row.randomId) {
        return false;
      }
      apuracoes := apuracoes[id := row];
      inserted := true;
    }

    /** Overwrite the `apuracao` row of week `id`, keeping its random id. */
    method UpdateApuracao(id: I32, row: ApuracaoRow)
      requires Valid() && id in apuracoes && apuracoes[id].randomId == row.randomId
      modifies this
      ensures Valid()
      ensures apuracoes == old(apuracoes)[id := row]
      ensures ballots == old(ballots) && jogadores == old(jogadores) && listaExtra == old(listaExtra)
      ensures nextBallotId == old(nextBallotId)
    {
      apuracoes := apuracoes[id := row];
    }

    /**
     * The first player whose email is `email`. The `email` column is not
     * unique, so the row `.one()` returns is taken to be the first in storage order.
     */
    method FindJogadorByEmail(email: string) returns (k: Option<nat>)
      ensures k.Some? ==> k.value < |jogadores| && jogadores[k.value].email == email
      ensures k.Some? ==> forall i :: 0 <= i < k.value ==> jogadores[i].email != email
      ensures k.None? <==> forall i :: 0 <= i < |jogadores| ==> jogadores[i].email != email
    {
      for i := 0 to |jogadores|
        invariant forall j :: 0 <= j < i ==> jogadores[j].email != email
      {
        if jogadores[i].email == email {
          return Some(i);
        }
      }
      return None;
    }
  }
}
