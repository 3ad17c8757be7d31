/**
 * The rows of the application's tables, as values (the sea_orm entities and
 * the schema in migration/src). A JSON column holding a list of player ids
 * is a `seq<int>`; timestamps are integer seconds.
 */
module Entities {
  import opened Timings

  datatype Option<T> = None | Some(value: T)

  datatype Result<T, E> = Ok(value: T) | Err(error: E)

  /**
   * The ballot state column. The code only ever writes "open" and "closed",
   * so the tally's `contains("closed")` filter selects exactly `Closed`.
   */
  datatype BallotState = Open | Closed

  /** One voter's ballot for one week. */
  datatype Ballot = Ballot(
    id: int,
    players: seq<int>,   // the offered players, as chosen at creation
    vote: seq<int>,      // the ranked vote, best first; empty until cast
    date: int,           // creation instant
    voter: string,       // the voter's login identity, not a player id
    futeId: I32,         // the week id (`fute_id`)
    state: BallotState)

  /** A player (`jogador`); the password hash and profile image are not modelled. */
  datatype Jogador = Jogador(id: int, nome: string, apelido: string, email: string, admin: bool)

  /** A manually added eligibility record (`lista_extra`). */
  datatype ListaExtra = ListaExtra(jogadorId: int, data: int)
}
