/**
 * The ballot lifecycle of src/services/voting.rs: who is eligible, creating a
 * ballot (`voting_create`) and casting a vote on it (`vote_submit`). The
 * handlers take the caller's identity, the clock reading and the ticket
 * query's result as parameters; HTTP responses become `Result` values.
 */
module Voting {
  import opened Timings
  import opened Entities
  import opened Store

  datatype VotingError =
    | NotLoggedIn        // the identity is missing
    | CannotCreateNow    // outside the creation window
    | NotEnoughPlayers   // fewer than five eligible players
    | BallotNotFound
    | Unauthorized       // the ballot belongs to another voter
    | NotOpen            // the ballot was already closed
    | VotingClosed       // outside the ballot's voting window
    | ParseFailed        // an entry of the vote is not an `i32`

  /** Both outcomes redirect the client to the ballot's page. */
  datatype CreateOutcome = Existing(ballotId: int) | Created(ballotId: int)

  /** The type of the ballot id in the request path. */
  type U32 = x: int | 0 <= x <= 0xffff_ffff

  /** Players offered on a ballot (`choose_multiple(.., 5)`). */
  const BallotSize: nat := 5

  // ---------------------------------------------------------------------
  // Parsing an `i32` (`str::parse::<i32>`) and printing one (`to_string`)
  // ---------------------------------------------------------------------

  predicate IsDigit(c: char)
  {
    '0' <= c <= '9'
  }

  predicate AllDigits(s: string)
  {
    forall i :: 0 <= i < |s| ==> IsDigit(s[i])
  }

  /** The decimal value of a digit string, most significant digit first. */
  function DigitsValue(s: string): nat
    requires AllDigits(s)
  {
    if s == [] then 0 else DigitsValue(s[..|s| - 1]) * 10 + (s[|s| - 1] as int - '0' as int)
  }

  /**
   * An optional `+` or `-`, then one or more ASCII digits (leading zeros
   * allowed), whose value must fit an `i32`.
   */
  function ParseI32(s: string): (r: Option<I32>)
    ensures r.Some? ==> |s| > 0 && IsDigit(s[|s| - 1])
    ensures r.Some? && r.value < 0 ==> s[0] == '-'
  {
    var signed := |s| > 0 && (s[0] == '-' || s[0] == '+');
    var digits := if signed then s[1..] else s;
    if digits == [] || !AllDigits(digits) then None
    else
      var v: int := if signed && s[0] == '-' then -(DigitsValue(digits) as int) else DigitsValue(digits);
      if I32Min <= v <= I32Max then Some(v) else None
  }

  function DigitChar(d: int): char
    requires 0 <= d < 10
  {
    ('0' as int + d) as char
  }

  function ShowNat(n: nat): string
  {
    if n < 10 then [DigitChar(n)] else ShowNat(n / 10) + [DigitChar(n % 10)]
  }

  /** Rust's `to_string` on an integer. */
  function ShowInt(x: int): string
  {
    if x < 0 then "-" + ShowNat(-x) else ShowNat(x)
  }

  lemma {:induction false} ShowNatDigits(n: nat)
    ensures |ShowNat(n)| > 0 && AllDigits(ShowNat(n)) && ShowNat(n)[0] != '-'
    ensures DigitsValue(ShowNat(n)) == n
  {
    if n >= 10 {
      ShowNatDigits(n / 10);
      var s := ShowNat(n);
      assert s[..|s| - 1] == ShowNat(n / 10);
    }
  }

  /**
   * Parsing what `to_string` printed gives the number back exactly when it
   * fits an `i32`; every other integer is rejected.
   */
  lemma ParseShow(x: int)
    ensures ParseI32(ShowInt(x)) == if I32Min <= x <= I32Max then Some(x) else None
  {
    if x < 0 {
      var n: nat := -x;
      ShowNatDigits(n);
      assert ShowInt(x)[1..] == ShowNat(n);
    } else {
      ShowNatDigits(x);
    }
  }

  /** An empty string and a lone sign are rejected. */
  lemma ParseRejectsNoDigits()
    ensures ParseI32("") == None && ParseI32("-") == None && ParseI32("+") == None
  {
    assert "-"[1..] == [] && "+"[1..] == [];
  }

  /** `collect::<Result<Vec<i32>>>()` over the parsed entries: the first failure wins. */
  function ParseAll(ss: seq<string>): Option<seq<I32>>
  {
    if ss == [] then Some([])
    else match (ParseI32(ss[0]), ParseAll(ss[1..])) {
      case (Some(v), Some(vs)) => Some([v] + vs)
      case _ => None
    }
  }

  /** The vote parses exactly when every entry does, and then entry by entry. */
  lemma {:induction false} ParseAllSpec(ss: seq<string>)
    ensures ParseAll(ss).Some? <==> forall i :: 0 <= i < |ss| ==> ParseI32(ss[i]).Some?
    ensures ParseAll(ss).Some? ==>
      |ParseAll(ss).value| == |ss| && forall i :: 0 <= i < |ss| ==> ParseI32(ss[i]) == Some(ParseAll(ss).value[i])
  {
    if ss != [] {
      var rest := ss[1..];
      ParseAllSpec(rest);
      var h, t := ParseI32(ss[0]), ParseAll(rest);
      assert ParseAll(ss) == if h.Some? && t.Some? then Some([h.value] + t.value) else None;
      if h.Some? && t.Some? {
        var v := [h.value] + t.value;
        forall i | 0 < i < |ss| ensures ParseI32(ss[i]) == Some(v[i]) {
          assert ss[i] == rest[i - 1] && v[i] == t.value[i - 1];
        }
      } else if h.Some? {
        var i :| 0 <= i < |rest| && ParseI32(rest[i]).None?;
        assert ss[i + 1] == rest[i];
      }
    }
  }

  // ---------------------------------------------------------------------
  // Eligibility (src/services/voting.rs:47-58 and 120-131)
  // ---------------------------------------------------------------------

  /** `collect::<Option<Vec<_>>>()` over the ticket emails. */
  function CollectEmails(ts: seq<Option<string>>): Option<seq<string>>
  {
    if ts == [] then Some([])
    else match (ts[0], CollectEmails(ts[1..])) {
      case (Some(e), Some(es)) => Some([e] + es)
      case _ => None
    }
  }

  /** `.unwrap_or_default()`: a single missing email empties the whole list. */
  function TicketEmails(ts: seq<Option<string>>): seq<string>
  {
    match CollectEmails(ts)
    case Some(es) => es
    case None => []
  }

  lemma {:induction false} TicketEmailsSpec(ts: seq<Option<string>>)
    ensures (exists i :: 0 <= i < |ts| && ts[i].None?) ==> TicketEmails(ts) == []
    ensures (forall i :: 0 <= i < |ts| ==> ts[i].Some?) ==>
      |TicketEmails(ts)| == |ts| && forall i :: 0 <= i < |ts| ==> TicketEmails(ts)[i] == ts[i].value
  {
    if ts != [] {
      TicketEmailsSpec(ts[1..]);
      if exists i :: 0 <= i < |ts| && ts[i].None? {
        var i :| 0 <= i < |ts| && ts[i].None?;
        if i > 0 {
          assert ts[1..][i - 1].None?;
        }
      }
      if forall i :: 0 <= i < |ts| ==> ts[i].Some? {
        assert forall i :: 0 <= i < |ts[1..]| ==> ts[1..][i] == ts[i + 1];
      }
    }
  }

  /** The players of the extra-list rows strictly inside (`start`, `end`). */
  function ExtraIds(extras: seq<ListaExtra>, start: int, end: int): seq<int>
  {
    if extras == [] then []
    else
      (if start < extras[0].data < end then [extras[0].jogadorId] else []) + ExtraIds(extras[1..], start, end)
  }

  /** Row `e` puts player `id` on the extra list of the window (start, end). */
  predicate ExtraRowOf(e: ListaExtra, id: int, start: int, end: int)
  {
    e.jogadorId == id && start < e.data < end
  }

  lemma {:induction false} ExtraIdsMembers(extras: seq<ListaExtra>, start: int, end: int, id: int)
    ensures id in ExtraIds(extras, start, end) <==>
      exists k :: 0 <= k < |extras| && ExtraRowOf(extras[k], id, start, end)
  {
    if extras != [] {
      var t := extras[1..];
      ExtraIdsMembers(t, start, end, id);
      var head := if ExtraRowOf(extras[0], id, start, end) then [id] else [];
      assert id in ExtraIds(extras, start, end) <==> id in head || id in ExtraIds(t, start, end);
      if exists k :: 0 <= k < |extras| && ExtraRowOf(extras[k], id, start, end) {
        var k :| 0 <= k < |extras| && ExtraRowOf(extras[k], id, start, end);
        if k > 0 {
          assert t[k - 1] == extras[k];
        }
      }
      if id in ExtraIds(t, start, end) {
        var k :| 0 <= k < |t| && ExtraRowOf(t[k], id, start, end);
        assert extras[k + 1] == t[k];
      }
    }
  }

  predicate IsEligible(p: Jogador, emails: seq<string>, extra: seq<int>)
  {
    p.email in emails || p.id in extra
  }

  /** The roster players, in roster order, with a ticket or an extra-list row. */
  function Eligible(roster: seq<Jogador>, emails: seq<string>, extra: seq<int>): seq<Jogador>
  {
    if roster == [] then []
    else (if IsEligible(roster[0], emails, extra) then [roster[0]] else []) + Eligible(roster[1..], emails, extra)
  }

  lemma {:induction false} EligibleMembers(roster: seq<Jogador>, emails: seq<string>, extra: seq<int>, p: Jogador)
    ensures p in Eligible(roster, emails, extra) <==> p in roster && IsEligible(p, emails, extra)
  {
    if roster != [] {
      EligibleMembers(roster[1..], emails, extra, p);
      assert roster == [roster[0]] + roster[1..];
    }
  }

  /** The filter keeps roster order: it distributes over concatenation. */
  lemma {:induction false} EligibleAppend(r1: seq<Jogador>, r2: seq<Jogador>, emails: seq<string>, extra: seq<int>)
    ensures Eligible(r1 + r2, emails, extra) == Eligible(r1, emails, extra) + Eligible(r2, emails, extra)
  {
    if r1 != [] {
      EligibleAppend(r1[1..], r2, emails, extra);
      assert (r1 + r2)[1..] == r1[1..] + r2;
    } else {
      assert r1 + r2 == r2;
    }
  }

  lemma {:induction false} EligibleDistinct(roster: seq<Jogador>, emails: seq<string>, extra: seq<int>)
    requires JogadorIdsDistinct(roster)
    ensures JogadorIdsDistinct(Eligible(roster, emails, extra))
  {
    if roster != [] {
      var rest := Eligible(roster[1..], emails, extra);
      EligibleDistinct(roster[1..], emails, extra);
      if IsEligible(roster[0], emails, extra) {
        var e := [roster[0]] + rest;
        forall i, j | 0 <= i < j < |e| ensures e[i].id != e[j].id {
          if i == 0 {
            assert e[j] in rest;
            EligibleMembers(roster[1..], emails, extra, e[j]);
            var m :| 0 <= m < |roster[1..]| && roster[1..][m] == e[j];
            assert roster[m + 1] == e[j];
          } else {
            assert e[i] == rest[i - 1] && e[j] == rest[j - 1];
          }
        }
      }
    }
  }

  /** The eligibility list at instant `now`, given the emails the ticket query returned. */
  function EligibleAt(jogadores: seq<Jogador>, extras: seq<ListaExtra>, tickets: seq<Option<string>>, now: int): seq<Jogador>
  {
    Eligible(jogadores, TicketEmails(tickets), ExtraIds(extras, StartEligibleCheck(now), EndEligibleCheck(now)))
  }

  /**
   * A player is eligible at `now` exactly when they are on the roster and
   * either hold a ticket email or have an extra-list row strictly inside the
   * four weeks before the reference point of `now`.
   */
  lemma EligibleAtMeaning(jogadores: seq<Jogador>, extras: seq<ListaExtra>, tickets: seq<Option<string>>, now: int, p: Jogador)
    ensures p in EligibleAt(jogadores, extras, tickets, now) <==>
      && p in jogadores
      && (|| p.email in TicketEmails(tickets)
          || exists k :: 0 <= k < |extras| && extras[k].jogadorId == p.id
               && RefPointOf(now) - 4 * Week < extras[k].data < RefPointOf(now))
  {
    EligibleMembers(jogadores, TicketEmails(tickets), ExtraIds(extras, StartEligibleCheck(now), EndEligibleCheck(now)), p);
    ExtraIdsMembers(extras, StartEligibleCheck(now), EndEligibleCheck(now), p.id);
  }

  /** `get_elegible_players`: the nicknames of the eligible players. */
  method ElegiblePlayers(db: Database, caller: Option<string>, tickets: seq<Option<string>>, now: int)
    returns (r: Result<seq<string>, VotingError>)
    ensures caller.None? <==> r.Err?
    ensures r.Err? ==> r.error == NotLoggedIn
    ensures r.Ok? ==>
      var e := EligibleAt(db.jogadores, db.listaExtra, tickets, now);
      |r.value| == |e| && forall i :: 0 <= i < |e| ==> r.value[i] == e[i].apelido
  {
    if caller.None? {
      return Err(NotLoggedIn);
    }
    var e := EligibleAt(db.jogadores, db.listaExtra, tickets, now);
    r := Ok(seq(|e|, i requires 0 <= i < |e| => e[i].apelido));
  }

  // ---------------------------------------------------------------------
  // Creating a ballot
  // ---------------------------------------------------------------------

  /** Five distinct positions of a list of `n` players. */
  predicate ValidPick(picks: seq<nat>, n: nat)
  {
    && |picks| == BallotSize
    && (forall i :: 0 <= i < |picks| ==> picks[i] < n)
    && (forall i, j :: 0 <= i < j < |picks| ==> picks[i] != picks[j])
  }

  /** Some player of `js` has id `id`. */
  predicate HasId(js: seq<Jogador>, id: int)
  {
    exists k :: 0 <= k < |js| && js[k].id == id
  }

  /** A ballot as `voting_create` inserts it. */
  predicate NewBallot(b: Ballot, id: int, voter: string, now: int, eligible: seq<Jogador>)
  {
    && b == Ballot(id, b.players, [], now, voter, RefPointId(now), Open)
    && |b.players| == BallotSize
    && (forall i, j :: 0 <= i < j < |b.players| ==> b.players[i] != b.players[j])
    && (forall i :: 0 <= i < |b.players| ==> HasId(eligible, b.players[i]))
  }

  /** The caller has an open ballot for the week of `now`. */
  predicate HasOpenBallot(bs: seq<Ballot>, voter: string, now: int)
  {
    exists k :: 0 <= k < |bs| && OpenFor(bs[k], voter, RefPointId(now))
  }

  /** The ids of the players at positions `picks` of `eligible`, in pick order. */
  method PickPlayers(eligible: seq<Jogador>, picks: seq<nat>) returns (players: seq<int>)
    requires ValidPick(picks, |eligible|) && JogadorIdsDistinct(eligible)
    ensures |players| == BallotSize
    ensures forall j :: 0 <= j < |players| ==> players[j] == eligible[picks[j]].id
    ensures forall i, j :: 0 <= i < j < |players| ==> players[i] != players[j]
    ensures forall i :: 0 <= i < |players| ==> HasId(eligible, players[i])
  {
    players := [];
    for i := 0 to BallotSize
      invariant |players| == i
      invariant forall j :: 0 <= j < i ==> players[j] == eligible[picks[j]].id
    {
      players := players + [eligible[picks[i]].id];
    }
    forall i, j | 0 <= i < j < |players| ensures players[i] != players[j] {
      if picks[i] < picks[j] {
        assert eligible[picks[i]].id != eligible[picks[j]].id;
      } else {
        assert eligible[picks[j]].id != eligible[picks[i]].id;
      }
    }
    forall i | 0 <= i < |players| ensures HasId(eligible, players[i]) {
      assert eligible[picks[i]].id == players[i];
    }
  }

  /**
   * `voting_create`: an open ballot of the caller for this week is returned
   * first; otherwise the creation window and the quorum of five eligible
   * players are checked, and a ballot offering five of them is inserted.
   */
  method VotingCreate(db: Database, caller: Option<string>, tickets: seq<Option<string>>, now: int)
    returns (r: Result<CreateOutcome, VotingError>)
    requires db.Valid()
    modifies db
    ensures db.Valid()
    ensures db.jogadores == old(db.jogadores) && db.listaExtra == old(db.listaExtra) && db.apuracoes == old(db.apuracoes)
    ensures caller.None? ==> r == Err(NotLoggedIn)
    ensures caller.Some? && HasOpenBallot(old(db.ballots), caller.value, now) ==> r.Ok? && r.value.Existing?
    ensures r.Ok? && r.value.Existing? ==>
      && db.ballots == old(db.ballots) && db.nextBallotId == old(db.nextBallotId)
      && exists k :: 0 <= k < |db.ballots| && db.ballots[k].id == r.value.ballotId
           && OpenFor(db.ballots[k], caller.value, RefPointId(now))
    ensures caller.Some? && !HasOpenBallot(old(db.ballots), caller.value, now) ==>
      var e := EligibleAt(db.jogadores, db.listaExtra, tickets, now);
      && (!CanCreateBallot(now) ==> r == Err(CannotCreateNow))
      && (CanCreateBallot(now) && |e| < BallotSize ==> r == Err(NotEnoughPlayers))
      && (CanCreateBallot(now) && |e| >= BallotSize ==> r.Ok? && r.value.Created?)
    ensures r.Err? ==> db.ballots == old(db.ballots) && db.nextBallotId == old(db.nextBallotId)
    ensures r.Ok? && r.value.Created? ==>
      && r.value.ballotId == old(db.nextBallotId)
      && db.nextBallotId == old(db.nextBallotId) + 1
      && |db.ballots| == |old(db.ballots)| + 1
      && db.ballots[..|old(db.ballots)|] == old(db.ballots)
      && NewBallot(db.ballots[|old(db.ballots)|], r.value.ballotId, caller.value, now,
                   EligibleAt(db.jogadores, db.listaExtra, tickets, now))
  {
    if caller.None? {
      return Err(NotLoggedIn);
    }
    var voter := caller.value;
    var eventId := RefPointId(now);
    var open := db.FindOpen(voter, eventId);
    if open.Some? {
      return Ok(Existing(db.ballots[open.value].id));
    }
    if !CanCreateBallot(now) {
      return Err(CannotCreateNow);
    }
    var eligible := EligibleAt(db.jogadores, db.listaExtra, tickets, now);
    if |eligible| < BallotSize {
      return Err(NotEnoughPlayers);
    }
    assert ValidPick([0, 1, 2, 3, 4], |eligible|);
    var picks :| ValidPick(picks, |eligible|);
    EligibleDistinct(db.jogadores, TicketEmails(tickets),
      ExtraIds(db.listaExtra, StartEligibleCheck(now), EndEligibleCheck(now)));
    var players := PickPlayers(eligible, picks);
    var b := Ballot(db.nextBallotId, players, [], now, voter, eventId, Open);
    assert NewBallot(b, db.nextBallotId, voter, now, eligible);
    var id := db.InsertBallot(b);
    r := Ok(Created(id));
  }

  /**
   * Within one week, once `voting_create` has given the caller a ballot, a
   * second request returns that same ballot and creates no other.
   */
  method CreateTwice(db: Database, caller: Option<string>, tickets1: seq<Option<string>>, tickets2: seq<Option<string>>,
                     now1: int, now2: int)
    returns (r1: Result<CreateOutcome, VotingError>, r2: Result<CreateOutcome, VotingError>)
    requires db.Valid() && RefPointId(now1) == RefPointId(now2)
    modifies db
    ensures r1.Ok? ==> r2 == Ok(Existing(r1.value.ballotId))
  {
    ghost var start := db.ballots;
    r1 := VotingCreate(db, caller, tickets1, now1);
    ghost var k: nat := 0;
    if r1.Ok? && r1.value.Created? {
      k := |start|;
      assert OpenFor(db.ballots[k], caller.value, RefPointId(now1));
    } else if r1.Ok? {
      k :| k < |db.ballots| && db.ballots[k].id == r1.value.ballotId && OpenFor(db.ballots[k], caller.value, RefPointId(now1));
    }
    ghost var between := db.ballots;
    r2 := VotingCreate(db, caller, tickets2, now2);
    if r1.Ok? {
      assert HasOpenBallot(between, caller.value, now2);
      var k2 :| 0 <= k2 < |db.ballots| && db.ballots[k2].id == r2.value.ballotId
        && OpenFor(db.ballots[k2], caller.value, RefPointId(now2));
      assert db.ballots == between;
    }
  }

  // ---------------------------------------------------------------------
  // Casting a vote
  // ---------------------------------------------------------------------

  /**
   * `vote_submit`: after the identity check, the ballot is looked up by the
   * path id (`as i32`), and four guards run in order: the caller owns it, it
   * is open, its week's voting window holds `now`, and every entry parses.
   * Only then are the parsed ids stored, unchecked, and the ballot closed.
   */
  method VoteSubmit(db: Database, path: U32, caller: Option<string>, entries: seq<string>, now: int)
    returns (r: Result<(), VotingError>)
    requires db.Valid()
    modifies db
    ensures db.Valid()
    ensures db.jogadores == old(db.jogadores) && db.listaExtra == old(db.listaExtra)
    ensures db.apuracoes == old(db.apuracoes) && db.nextBallotId == old(db.nextBallotId)
    ensures r.Err? ==> db.ballots == old(db.ballots)
    ensures r.Ok? ==> exists k :: 0 <= k < |db.ballots| && db.ballots[k].id == ToI32(path) && db.ballots[k].state == Closed
    ensures caller.None? ==> r == Err(NotLoggedIn)
    ensures caller.Some? && (forall k :: 0 <= k < |old(db.ballots)| ==> old(db.ballots)[k].id != ToI32(path)) ==>
      r == Err(BallotNotFound)
    ensures forall k :: 0 <= k < |old(db.ballots)| && old(db.ballots)[k].id == ToI32(path) && caller.Some? ==>
      var b := old(db.ballots)[k];
      && (b.voter != caller.value ==> r == Err(Unauthorized))
      && (b.voter == caller.value && b.state != Open ==> r == Err(NotOpen))
      && (b.voter == caller.value && b.state == Open && !CanCastVote(RefPointFromId(b.futeId), now) ==>
            r == Err(VotingClosed))
      && (b.voter == caller.value && b.state == Open && CanCastVote(RefPointFromId(b.futeId), now) ==>
            && (ParseAll(entries).None? ==> r == Err(ParseFailed))
            && (ParseAll(entries).Some? ==>
                  r == Ok(()) && db.ballots == old(db.ballots)[k := b.(vote := ParseAll(entries).value, state := Closed)]))
  {
    if caller.None? {
      return Err(NotLoggedIn);
    }
    var id := ToI32(path);
    var found := db.FindBallot(id);
    if found.None? {
      return Err(BallotNotFound);
    }
    var k := found.value;
    var b := db.ballots[k];
    if b.voter != caller.value {
      return Err(Unauthorized);
    }
    if b.state != Open {
      return Err(NotOpen);
    }
    if !CanCastVote(RefPointFromId(b.futeId), now) {
      return Err(VotingClosed);
    }
    var vote := ParseAll(entries);
    if vote.None? {
      return Err(ParseFailed);
    }
    CloseKeepsTable(db.ballots, k, vote.value);
    db.ballots := db.ballots[k := b.(vote := vote.value, state := Closed)];
    assert db.ballots[k].id == id && db.ballots[k].state == Closed;
    r := Ok(());
  }

  /** Storing a vote and closing the ballot keeps the table invariants. */
  lemma CloseKeepsTable(bs: seq<Ballot>, k: nat, vote: seq<int>)
    requires BallotIdsDistinct(bs) && OneOpenPerWeek(bs) && k < |bs|
    ensures var r := bs[k := bs[k].(vote := vote, state := Closed)];
      BallotIdsDistinct(r) && OneOpenPerWeek(r) && forall i :: 0 <= i < |r| ==> r[i].id == bs[i].id
  {
    var r := bs[k := bs[k].(vote := vote, state := Closed)];
    forall i, j | 0 <= i < j < |r| && r[i].state == Open
      ensures !OpenFor(r[j], r[i].voter, r[i].futeId)
    {
      assert r[i] == bs[i];
      if r[j].state == Open {
        assert r[j] == bs[j];
      }
    }
  }

  /** A vote goes through at most once: submitting again to the same ballot is refused. */
  method SubmitTwice(db: Database, path: U32, caller: Option<string>, first: seq<string>, second: seq<string>, now1: int, now2: int)
    returns (r1: Result<(), VotingError>, r2: Result<(), VotingError>)
    requires db.Valid()
    modifies db
    ensures r1.Ok? ==> r2 == Err(NotOpen)
  {
    r1 := VoteSubmit(db, path, caller, first, now1);
    ghost var k: nat := 0;
    if r1.Ok? {
      k :| k < |db.ballots| && db.ballots[k].id == ToI32(path) && db.ballots[k].state == Closed;
    }
    r2 := VoteSubmit(db, path, caller, second, now2);
  }
}
