/**
 A model of the `Chance` lottery contract: a round-based state machine in
 which callers enter the current round, and the round is drawn (a winner
 picked, recorded, the round counter advanced and the round cleared) as soon
 as the number of entries reaches the configured maximum.
 */

/** Account identifiers: opaque 32-byte values with one all-zero sentinel. */
module Accounts {

  /** An account identifier, 32 raw bytes. */
  type AccountId = s: seq<bv8> | |s| == 32 witness seq(32, _ => 0 as bv8)

  /** The all-zero account, used as "no winner yet". */
  const ZeroAccount: AccountId := seq(32, _ => 0 as bv8)

  /** The range of an unsigned 32-bit integer. */
  const U32_LIMIT: int := 0x1_0000_0000

  type U32 = x: nat | x < U32_LIMIT
}

/**
 Selection of the winner from the entrants of a round. The random index the
 contract draws is a parameter `pick`; selection is then a pure function of
 the entrants and the pick.
 */
module WinnerSelection {
  import opened Accounts

  datatype Option<T> = None | Some(value: T)

  /**
   Picks the entrant at position `pick`. An empty round has no position to
   draw from: the draw fails (`None`), as the random range `0..0` does.
   */
  function Draw(entrants: seq<AccountId>, pick: nat): (w: Option<AccountId>)
    requires entrants != [] ==> pick < |entrants|
    ensures w.Some? <==> entrants != []
    ensures w.Some? ==> w.value in entrants
  {
    if entrants == [] then None else Some(entrants[pick])
  }

  /** The picks in `0..|entrants|` that make `a` the winner. */
  function WinningPicks(entrants: seq<AccountId>, a: AccountId): set<nat>
  {
    set i: nat | i < |entrants| && Draw(entrants, i) == Some(a)
  }

  /**
   Entries weigh the draw: an account that entered k times is drawn by exactly
   k of the |entrants| possible picks, so with a uniform pick it wins with
   probability k / |entrants|.
   */
  lemma {:induction false} WinningPicksCount(entrants: seq<AccountId>, a: AccountId)
    ensures |WinningPicks(entrants, a)| == multiset(entrants)[a]
  {
    if entrants == [] {
      assert WinningPicks(entrants, a) == {};
    } else {
      var n := |entrants| - 1;
      var front, last := entrants[..n], entrants[n];
      assert entrants == front + [last];
      WinningPicksCount(front, a);
      var extra: set<nat> := if last == a then {n} else {};
      forall i: nat | i < n
        ensures Draw(entrants, i) == Draw(front, i)
      {
        assert entrants[i] == front[i];
      }
      assert WinningPicks(entrants, a) == WinningPicks(front, a) + extra;
      assert n !in WinningPicks(front, a);
      assert multiset(entrants) == multiset(front) + multiset{last};
    }
  }

  /** A winner is always drawn by at least one pick, and a non-entrant by none. */
  lemma WinningPicksNonEmpty(entrants: seq<AccountId>, a: AccountId)
    ensures WinningPicks(entrants, a) != {} <==> a in entrants
  {
    WinningPicksCount(entrants, a);
    assert a in entrants <==> a in multiset(entrants);
  }
}

/** The contract's storage and its messages. */
module Lottery {
  import opened Accounts
  import opened WinnerSelection

  /** A completed round: who entered it, in entry order, and who won it. */
  datatype Round = Round(entrants: seq<AccountId>, winner: AccountId)

  /** How a message ends: it completes, or it panics and the call is reverted. */
  datatype Outcome = Completed | Trapped

  /** The entrants of the given rounds, one round after another. */
  function Flatten(rounds: seq<Round>): seq<AccountId>
  {
    if rounds == [] then [] else rounds[0].entrants + Flatten(rounds[1..])
  }

  lemma {:induction false} FlattenAppend(rounds: seq<Round>, r: Round)
    ensures Flatten(rounds + [r]) == Flatten(rounds) + r.entrants
  {
    if rounds == [] {
      assert [r][1..] == [];
    } else {
      assert (rounds + [r])[1..] == rounds[1..] + [r];
      FlattenAppend(rounds[1..], r);
    }
  }

  class Chance {
    // storage of the contract
    var players: seq<AccountId>
    var playerCount: nat
    var lastWinner: AccountId
    var roundCount: nat
    var maxPlayers: U32

    // history, for the specification only
    ghost var rounds: seq<Round>       // every completed round, oldest first
    ghost var entries: seq<AccountId>  // every caller of Enter, in call order

    /** What every message keeps, except the bound on the count. */
    ghost predicate Consistent()
      reads this
    {
      && playerCount == |players|
      && roundCount == |rounds|
      && (rounds == [] ==> lastWinner == ZeroAccount)
      && (rounds != [] ==> lastWinner == rounds[|rounds| - 1].winner)
      && (forall k :: 0 <= k < |rounds| ==> rounds[k].winner in rounds[k].entrants)
      && (maxPlayers > 0 ==> playerCount <= maxPlayers)
      && (maxPlayers > 0 ==> forall k :: 0 <= k < |rounds| ==> |rounds[k].entrants| <= maxPlayers)
      && entries == Flatten(rounds) + players
    }

    /** The object invariant: a non-zero maximum is never reached between calls. */
    ghost predicate Valid()
      reads this
    {
      Consistent() && (maxPlayers == 0 || playerCount < maxPlayers)
    }

    constructor (maxPlayers: U32)
      ensures Valid()
      ensures players == [] && playerCount == 0 && roundCount == 0
      ensures lastWinner == ZeroAccount && this.maxPlayers == maxPlayers
      ensures rounds == [] && entries == []
    {
      this.maxPlayers := maxPlayers;
      players := [];
      playerCount := 0;
      lastWinner := ZeroAccount;
      roundCount := 0;
      rounds := [];
      entries := [];
    }

    /**
     The caller enters the current round. The entry that brings the count to
     the maximum draws the round at once, with `pick` as the drawn index.
     */
    method Enter(caller: AccountId, pick: nat)
      requires Valid()
      requires playerCount + 1 == maxPlayers ==> pick <= |players|
      modifies this
      ensures Valid()
      ensures maxPlayers == old(maxPlayers)
      ensures entries == old(entries) + [caller]
      ensures roundCount != old(roundCount) <==> old(playerCount) + 1 == maxPlayers
      ensures old(playerCount) + 1 != maxPlayers ==>
        && players == old(players) + [caller]
        && playerCount == old(playerCount) + 1
        && roundCount == old(roundCount)
        && lastWinner == old(lastWinner)
        && rounds == old(rounds)
      ensures old(playerCount) + 1 == maxPlayers ==>
        && |old(players) + [caller]| == maxPlayers
        && Draw(old(players) + [caller], pick) == Some(lastWinner)
        && lastWinner in old(players) + [caller]
        && players == [] && playerCount == 0
        && roundCount == old(roundCount) + 1
        && rounds == old(rounds) + [Round(old(players) + [caller], lastWinner)]
    {
      players := players + [caller];
      playerCount := playerCount + 1;
      entries := entries + [caller];
      if playerCount == maxPlayers {
        var outcome := StartRound(pick);
        assert outcome == Completed;  // the round has just received an entry
      }
    }

    /**
     Draws the current round: the entrant at `pick` becomes the last winner,
     the round counter moves on by one and the round is cleared. On an empty
     round the draw panics and nothing changes.
     */
    method StartRound(pick: nat) returns (outcome: Outcome)
      requires Consistent()
      requires players != [] ==> pick < |players|
      modifies this
      ensures Valid()
      ensures outcome == Trapped <==> old(players) == []
      ensures outcome == Trapped ==> unchanged(this)
      ensures outcome == Completed ==>
        && Draw(old(players), pick) == Some(lastWinner)
        && lastWinner in old(players)
        && roundCount == old(roundCount) + 1
        && players == [] && playerCount == 0
        && maxPlayers == old(maxPlayers)
        && rounds == old(rounds) + [Round(old(players), lastWinner)]
        && entries == old(entries)
    {
      var winner := ChooseWinner(pick);
      if winner.None? {
        return Trapped;
      }
      FlattenAppend(rounds, Round(players, winner.value));
      lastWinner := winner.value;
      roundCount := roundCount + 1;
      playerCount := 0;
      rounds := rounds + [Round(players, winner.value)];
      players := [];
      outcome := Completed;
    }

    /** The winner the index `pick` selects from the current round. */
    function ChooseWinner(pick: nat): (w: Option<AccountId>)
      reads this
      requires players != [] ==> pick < |players|
      ensures w.None? <==> players == []
      ensures w.Some? ==> w.value in players
    {
      Draw(players, pick)
    }

    /** A copy of the current round's entrants, in entry order. */
    method GetPlayers() returns (ps: seq<AccountId>)
      requires Valid()
      ensures ps == players && |ps| == playerCount
    {
      ps := players;
    }

    /** The number of entries in the current round. */
    method GetPlayerCount() returns (n: nat)
      requires Valid()
      ensures n == playerCount == |players|
      ensures maxPlayers > 0 ==> n < maxPlayers
    {
      n := playerCount;
    }

    /** The winner of the latest round, or the zero account before any round. */
    method GetLastWinner() returns (w: AccountId)
      requires Valid()
      ensures w == lastWinner
      ensures roundCount == 0 ==> w == ZeroAccount
      ensures roundCount > 0 ==> w in rounds[roundCount - 1].entrants
    {
      w := lastWinner;
    }
  }

  /**
   A client of the contract: with a maximum of three, the third entry draws
   the round, and the winner is one of the three callers.
   */
  method ThreeEntrantRound(a: AccountId, b: AccountId, c: AccountId, pick: nat)
    returns (w: AccountId, count: nat)
    requires pick < 3
    ensures w == a || w == b || w == c
    ensures count == 0
  {
    var chance := new Chance(3);
    chance.Enter(a, pick);
    assert chance.players == [a] && chance.rounds == [];
    chance.Enter(b, pick);
    assert chance.players == [a, b] && chance.rounds == [];
    assert [a, b] + [c] == [a, b, c];
    chance.Enter(c, pick);
    assert chance.rounds == [Round([a, b, c], chance.lastWinner)];
    w := chance.GetLastWinner();
    count := chance.GetPlayerCount();
  }
}
