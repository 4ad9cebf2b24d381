# Chance: a round-based lottery contract, modelled in Dafny

`Chance` is an ink! smart contract. Callers `enter` the current round. Each
entry is recorded in `players` and counted in `player_count`. The entry that
brings the count to `max_players` starts the round. `start_round` picks a
winner from the entrants, records it as `last_winner`, bumps `round_count` and
clears the round. `choose_winner` and the getters only read storage.

`chance.dfy` holds three modules:

- `Accounts`: `AccountId` (32 bytes), the all-zero sentinel `ZeroAccount`, and
  the `U32` range used for `max_players`.
- `WinnerSelection`: the draw as a pure function. `Draw` takes the entrants
  and the drawn index `pick`. `WinningPicksCount` proves that entering k times
  means being drawn by exactly k of the possible picks.
- `Lottery`: the class `Chance` with the contract's five storage fields and
  its messages. It also keeps two ghost fields as history: `rounds` (each
  completed round's entrants and winner) and `entries` (every caller of
  `Enter`, in order). The object invariant `Valid()` ties these to storage:
  - `player_count == |players|`;
  - a non-zero `max_players` is never reached between calls;
  - `round_count` is the number of completed rounds;
  - `last_winner` is the zero account before the first round, and the latest
    round's winner after it;
  - every winner is one of its round's entrants;
  - every entry lies in exactly one completed round or in the open round, in
    entry order.

The random index is a parameter `pick`. Its only constraint is the range the
contract's generator draws from (`0..len`), and it applies only when a draw
actually happens. A panic ends an ink! message and reverts its storage
changes. The model therefore treats `start_round` on an empty round (an empty
random range) as `Trapped`, with the state unchanged. `choose_winner` on an
empty round returns `None`.

As written, `lib.rs` does not compile. It calls `choose_winner` with an
argument at `lib.rs:46` but declares it with only `&self`. It also moves
`players` out of `&self` in `get_players`. The model follows the evident
intent: the winner is chosen from the current `players`, and `GetPlayers`
returns a copy.

Three behaviours of the code are easy to miss:

- `new(0)` is accepted. With a maximum of 0, no entry ever draws a round.
- The "no winner" value is the zero account.
- Drawing an empty round panics.

## Model

| member | source | states |
|---|---|---|
| `WinnerSelection.Draw` | lib.rs:56-58 | the draw fails exactly when the round is empty; otherwise the winner is one of the entrants |
| `WinnerSelection.WinningPicksCount` | lib.rs:57 | an account that entered k times is the winner for exactly k of the picks in `0..len`, so a uniform pick weights the draw by entries |
| `WinnerSelection.WinningPicksNonEmpty` | lib.rs:57 | some pick draws an account if and only if it entered the round |
| `Lottery.FlattenAppend` | lib.rs:49-51 | helper over the ghost history, which the contract itself does not keep: adding a closed round to the history appends its entrants, in order, to those of the earlier rounds; this keeps the invariant clause `entries == Flatten(rounds) + players` true across the reset of the round |
| `Lottery.Chance.constructor` | lib.rs:23-31 | a new contract has no players, a count of 0, no rounds, the zero account as last winner and the given maximum; the invariant holds |
| `Lottery.Chance.Enter` | lib.rs:36-42 | the caller is recorded as an entry. If the incremented count differs from the maximum, the caller is appended and the count grows by one; round count, last winner and maximum are unchanged. If it equals the maximum, the round (exactly `max_players` entrants, ending with the caller) is drawn and cleared. The round counter changes exactly when the incremented count equals the maximum. The invariant is preserved |
| `Lottery.Chance.StartRound` | lib.rs:45-52 | on an empty round the call traps and nothing changes. Otherwise the last winner is the entrant at `pick` and so one of the old players, the round counter rises by exactly one, the round is empty with count 0, the maximum is unchanged and the round joins the history. The invariant holds afterwards, even if it was called when the count was at the maximum |
| `Lottery.Chance.ChooseWinner` | lib.rs:56-58 | reads the current round only; no winner exactly when the round is empty, otherwise a member of `players` |
| `Lottery.Chance.GetPlayers` | lib.rs:63-66 | returns the current entrants, whose number is the player count; changes nothing |
| `Lottery.Chance.GetPlayerCount` | lib.rs:68-72 | returns the count, which equals the number of entrants and stays below a non-zero maximum; changes nothing |
| `Lottery.Chance.GetLastWinner` | lib.rs:74-78 | returns the last winner: the zero account before any round completes, afterwards an entrant of the latest round; changes nothing |
| `Lottery.ThreeEntrantRound` | lib.rs:36-51 | with a maximum of three, three entries complete a round whose winner is one of the three callers and leave the count at 0 |

## Left out

- The random number generator (`rand::thread_rng().gen_range`, lib.rs:57) is foreign and non-deterministic. It is replaced by the index `pick`. Its distribution and fairness are not modelled; only the weight each entry gives is stated.
- The fund transfer to the winner (lib.rs:47) is the host environment's business. The contract holds no balance state, and a failed transfer is not modelled.
- `self.env().caller()` (lib.rs:37) becomes the `caller` parameter of `Enter`.
- The attached payment of the payable `enter`, the ink! attributes and the `no_std` setup (lib.rs:1-12, lib.rs:35) are framework plumbing.
- The `tests` module (lib.rs:84-107) calls `get`, `flip` and `Chance::new(false)`. None of these exist in this contract, so it states nothing about it.
- Lottery.Chance.Enter: `player_count` is an unbounded natural, so u32 overflow is not modelled. It can only happen when `max_players` is 0; otherwise the count stays below the maximum.
- Lottery.Chance.StartRound: `round_count` is an unbounded natural, so u32 overflow after 2^32 rounds is not modelled.
- `get_players` returns a copy in the model, not the move that `lib.rs:65` attempts (which does not compile).
