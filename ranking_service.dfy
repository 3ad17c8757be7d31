/**
 * The ranking pages of src/services/ranking.rs: `week_ranking`, which shows a
 * week's memoized result once it may be published, and `debug_ranking`, an
 * admin-only live tally of the current week.
 */
module RankingService {
  import opened Timings
  import opened Entities
  import opened Tally
  import opened Store
  import opened Apuracao

  /** What `week_ranking` renders. */
  datatype WeekPage =
    | NotPublished(publishAt: int)   // the "not published yet" page and its publication instant
    | Published(ranking: Ranking)

  datatype DebugError = NotLoggedIn | UserNotFound | NotAdmin | DebugTallyFailed(e: TallyError)

  /** What `debug_ranking` renders: the ranking, the week start and the week id. */
  datatype DebugPage = DebugPage(ranking: Ranking, lastReset: int, refPointId: I32)

  /** The page shown for the result of `get_or_create_apuracao`; an error is passed on. */
  function AsPage(t: Result<Ranking, ApuracaoError>): Result<WeekPage, ApuracaoError>
  {
    if t.Ok? then Ok(Published(t.value)) else Err(t.error)
  }

  /** A week id's reference point is aligned. */
  lemma FromIdAligned(id: I32)
    ensures Aligned(RefPointFromId(id))
  {
    assert RefPointFromId(id) - Anchor == id * Week;
  }

  /** Whenever `week_ranking` shows a week's results, voting on that week has closed. */
  lemma PublishedAfterVoting(weekId: I32, now: int)
    requires PublishResults(RefPointFromId(weekId), now)
    ensures now >= RefPointFromId(weekId) + Week + 90 * 60
    ensures !CanCastVote(RefPointFromId(weekId), now)
  {
    FromIdAligned(weekId);
    PublishIff(RefPointFromId(weekId), now);
  }

  /**
   * `week_ranking(week_id)`: before the publication instant only that instant
   * is reported and nothing is read or written; afterwards the week's result
   * comes from `get_or_create_apuracao`.
   */
  method WeekRanking(db: Database, weekId: I32, randId: I32, now: int)
    returns (r: Result<WeekPage, ApuracaoError>)
    requires db.Valid()
    modifies db
    ensures db.Valid()
    ensures db.jogadores == old(db.jogadores) && db.listaExtra == old(db.listaExtra)
    ensures db.nextBallotId == old(db.nextBallotId)
    ensures !PublishResults(RefPointFromId(weekId), now) ==>
      && r == Ok(NotPublished(PublishTime(RefPointFromId(weekId))))
      && db.ballots == old(db.ballots) && db.apuracoes == old(db.apuracoes)
    ensures r.Ok? && r.value.Published? ==>
      && PublishResults(RefPointFromId(weekId), now)
      && weekId in db.apuracoes && db.apuracoes[weekId].state == Complete
      && db.apuracoes[weekId].results == r.value.ranking
    ensures PublishResults(RefPointFromId(weekId), now) && weekId in old(db.apuracoes) ==>
      && db.ballots == old(db.ballots) && db.apuracoes == old(db.apuracoes)
      && (old(db.apuracoes)[weekId].state == Complete ==> r == Ok(Published(old(db.apuracoes)[weekId].results)))
      && (old(db.apuracoes)[weekId].state != Complete ==> r == Err(NotComplete))
    ensures PublishResults(RefPointFromId(weekId), now) && weekId !in old(db.apuracoes)
            && RandomIdTaken(old(db.apuracoes), randId) ==>
      r == Err(DuplicateKey) && db.ballots == old(db.ballots) && db.apuracoes == old(db.apuracoes)
    ensures PublishResults(RefPointFromId(weekId), now) && weekId !in old(db.apuracoes)
            && !RandomIdTaken(old(db.apuracoes), randId) ==>
      var t := Reported(RankingOf(ClosedOfWeek(db.ballots, weekId), db.jogadores, now));
      && db.ballots == CloseWeek(old(db.ballots), weekId)
      && r == AsPage(t)
      && (r.Ok? <==> AllScorable(ClosedOfWeek(db.ballots, weekId)))
      && db.apuracoes == old(db.apuracoes)[weekId := FinalRow(randId, now, t)]
  {
    var refPoint := RefPointFromId(weekId);
    if !PublishResults(refPoint, now) {
      return Ok(NotPublished(PublishTime(refPoint)));
    }
    var ranking := GetOrCreateApuracao(db, weekId, randId, now);
    if ranking.Err? {
      return Err(ranking.error);
    }
    r := Ok(Published(ranking.value));
    assert r == AsPage(ranking);
  }

  /** The query of `debug_ranking`: closed ballots created after `since`. */
  function DebugSelection(bs: seq<Ballot>, since: int): seq<Ballot>
  {
    if bs == [] then []
    else (if bs[0].state == Closed && bs[0].date > since then [bs[0]] else []) + DebugSelection(bs[1..], since)
  }

  lemma {:induction false} DebugSelectionMembers(bs: seq<Ballot>, since: int, b: Ballot)
    ensures b in DebugSelection(bs, since) <==> b in bs && b.state == Closed && b.date > since
  {
    if bs != [] {
      DebugSelectionMembers(bs[1..], since, b);
      assert bs == [bs[0]] + bs[1..];
    }
  }

  /**
   * The debug page selects by creation date, not by week id: a closed ballot
   * of week 0 created at the very start of that week is in the week's tally
   * but not in the debug tally taken during that week.
   */
  lemma DebugSelectionSkipsWeekStart()
    ensures var b := Ballot(1, [], [], Anchor, "voter", 0, Closed);
      && ClosedOfWeek([b], 0) == [b]
      && DebugSelection([b], RefPointOf(Anchor)) == []
  {
    var b := Ballot(1, [], [], Anchor, "voter", 0, Closed);
    assert [b][..0] == [];
  }

  /** `k` is the first player whose email is `email`. */
  predicate FirstWithEmail(js: seq<Jogador>, email: string, k: int)
  {
    0 <= k < |js| && js[k].email == email && forall i :: 0 <= i < k ==> js[i].email != email
  }

  /**
   * `debug_ranking`: only an admin (the first player whose email is the
   * caller's identity must have `admin` set) sees the tally of the closed
   * ballots created since the current reference point. Nothing is written.
   */
  method DebugRanking(db: Database, caller: Option<string>, now: int) returns (r: Result<DebugPage, DebugError>)
    ensures caller.None? ==> r == Err(NotLoggedIn)
    ensures caller.Some? && (forall k :: 0 <= k < |db.jogadores| ==> db.jogadores[k].email != caller.value) ==>
      r == Err(UserNotFound)
    ensures forall k :: caller.Some? && FirstWithEmail(db.jogadores, caller.value, k) ==>
      var votes := DebugSelection(db.ballots, RefPointOf(now));
      && (!db.jogadores[k].admin ==> r == Err(NotAdmin))
      && (db.jogadores[k].admin && !AllScorable(votes) ==> r == Err(DebugTallyFailed(ScoreUnderflow)))
      && (db.jogadores[k].admin && AllScorable(votes) ==> r.Ok?)
    ensures r.Ok? ==>
      var votes := DebugSelection(db.ballots, RefPointOf(now));
      && RankingOf(votes, db.jogadores, now) == Ok(r.value.ranking)
      && r.value.ranking.votes == |votes|
      && r.value.lastReset == RefPointOf(now) && r.value.refPointId == RefPointId(now)
  {
    if caller.None? {
      return Err(NotLoggedIn);
    }
    var user := db.FindJogadorByEmail(caller.value);
    if user.None? {
      return Err(UserNotFound);
    }
    if !db.jogadores[user.value].admin {
      return Err(NotAdmin);
    }
    var startOfWeek := RefPointOf(now);
    var votes := DebugSelection(db.ballots, startOfWeek);
    var ranking := TallyVotes(votes, db.jogadores, now);
    if ranking.Err? {
      return Err(DebugTallyFailed(ranking.error));
    }
    RankingShape(votes, db.jogadores, now);
    r := Ok(DebugPage(ranking.value, startOfWeek, RefPointId(now)));
  }
}
