# Provably-fair dice casino: seeds, ledger and flash bets

This project models the betting core of a Django dice casino in Dafny:

- **Seeds** (`seeds.dfy`): the per-user `Seed` record. It holds a client seed, the server seed stored encrypted under a process-wide key, the published commitment (the hash of the plaintext server seed), a `visible` flag saying whether the seed was revealed, and a nonce. Its operations rotate the server seed, change the client seed, advance the nonce and reveal the plaintext. The post-save signal gives a new user a seed committed to a fresh server seed. The ghost predicate `Committed` says that the commitment is the hash of what the stored seed decrypts to. Rotation establishes it, provided decryption undoes encryption. The other operations preserve it. After a reveal, the plaintext handed out hashes to the commitment.
- **Ledger** (`ledger.dfy`): the player's `ProfileUser` balances and the house's `CasinoBankroll`, one amount per ticker (`PLAY`, `ETH`, `BTC`). `reduce_funds_bet` moves a stake from player to house. `gain_funds` moves a win from house to player. `deposit_funds_wallet` credits the player. The pure functions `BetDebit`, `WinCredit` and `WalletDeposit` state each operation's effect and error cases on values. The class methods do the same work in place and are proved to agree with them. Lemmas show that player-plus-house totals are conserved over any sequence of transfers. They also show that debits and non-negative credits never drive a non-negative player balance below zero. `gain_funds` does not check the sign of its amount, so a negative win can drive the player's balance below zero, just as a large win can overdraw the house.
- **Flash bets** (`flash_bets.dfy`): the batch loop of `process_flash_bet`. A revealed seed is first rotated. The dice setup is computed once. Then bet `i` is rolled at nonce `k + i` and classified against the half-open range `[min_range, max_range)`. Wins, losses and net profit are accumulated, and the totals are reported. `Accumulate` is the specification of the loop. Lemmas prove that wins plus losses is the number of bets, that the wins are exactly the rolls in range, and that net profit is wins times the won amount minus losses times the stake.
- **Seed views** (`seed_views.dfy`): the seed endpoints. They cover the allowed methods, the refused create, the field-filtering update with the conversions its save applies, and the rotate and reveal actions.

Money is `Decimal` in the casino's Python code and exact `real` here. The hash, encryption and decryption helpers are uninterpreted function values in `Encryption.Primitives`. The fact that decryption inverts encryption is the predicate `DecryptInvertsEncrypt`, and the contracts that need it take it as a hypothesis. The provably-fair roller and `compute_dice_setup` are function-valued parameters. Random values are parameters: `token_hex(32)` and the server seed a new roller generates. So is the seeds key.

Behaviour of the code that the model keeps as it is:

- `modify_server_seed` takes any supplied value as the new plaintext, including the empty string. Only a missing value (`None`) makes it draw a fresh token.
- Outside the rotating branch, the flash-bet roller is keyed with the stored `server_seed` field, which is the ciphertext. Only the batch that rotates a revealed seed rolls with the fresh plaintext. Every other batch rolls with the stored ciphertext, including the first one after `change_server_seed` or the sign-up signal, since both leave the seed hidden. So the batch that rotates and the later batches on the same committed seed use different keys, unless encryption is the identity. `FlashBets.SelectRollerKey` states both branches.
- A completed flash-bet batch never touches either balance. `ProcessFlashBet` takes both account objects and ensures they are unchanged.
- `update` skips values that are `""`, `"string"` or falsy. A JSON `false` for `visible` is therefore ignored. But the raw request value is assigned and only converted when the row is saved. So the strings `"f"`, `"False"` and `"0"` are saved as false and hide a revealed seed again; the next flash bet then does not rotate it. A string the boolean field cannot convert makes the save raise, and nothing is written, not even a valid `client_seed` sent with it. `SeedViews.UpdatedFields` states both cases, and `SeedViews.UpdateCanHideRevealedSeed` gives an instance.

## Model

| member | source | states |
|---|---|---|
| Seeds.Seed.constructor | OLD_models.py:136-140 | a new seed row has client seed "Seed", server seed "ServerSeed", commitment "HASH", is hidden and has nonce 0 |
| Seeds.Seed.ToString | OLD_models.py:145-150 | a hidden seed shows "Hidden"; a revealed one shows its stored (encrypted) server seed field |
| Seeds.Seed.IncrementNonce | OLD_models.py:152-154 | the nonce goes up by exactly one and every other field is unchanged |
| Seeds.Seed.ModifyServerSeed | OLD_models.py:156-169 | the plaintext is the supplied seed if given, else the fresh token; afterwards commitment = H(plaintext), stored seed = Enc(plaintext, key), hidden, nonce 0, client seed unchanged, and the seed is committed when decryption inverts encryption |
| Seeds.Seed.ModifyClientSeed | OLD_models.py:171-173 | only the client seed changes; server seed, commitment, visibility and nonce are kept |
| Seeds.Seed.DecryptServerSeed | OLD_models.py:175-178 | the result is the plaintext the stored seed encrypts (given the round trip), and on a committed seed it hashes to the commitment |
| Seeds.Seed.RevealServerSeed | OLD_models.py:180-186 | returns the decrypted stored seed and sets visible; nonce, seeds and commitment unchanged; on a committed seed the returned plaintext hashes to the commitment |
| Seeds.Seed.RevealServerSeedTwice | OLD_models.py:180-186 | two reveals in a row return the same plaintext and leave the nonce and stored seed alone |
| Seeds.UpdateSeedSignal | OLD_models.py:204-213 | only a created user gets a seed: fresh, hidden, nonce 0, commitment H(tmp) and stored seed Enc(tmp) for the same tmp, hence committed |
| Ledger.ParseTicker | OLD_models.py:255-286 | a ticker string selects a currency exactly when it names one of PLAY, ETH, BTC |
| Ledger.BetDebit | OLD_models.py:248-286 | a negative amount fails with InvalidAmount before the ticker is checked; an unknown ticker fails with BadTicker; an amount above the player's balance fails with NotEnoughFunds; otherwise player[c] drops and casino[c] rises by the amount, other currencies untouched, totals conserved, player stays non-negative |
| Ledger.WinCredit | OLD_models.py:290-310 | fails only on a bad ticker; otherwise player[c] rises and casino[c] falls by the amount, with no sign or bankroll check, totals conserved |
| Ledger.WalletDeposit | OLD_models.py:313-326 | fails only on a bad ticker; otherwise only player[c] rises by the amount |
| Ledger.WinCreditCanOverdrawCasino | OLD_models.py:290-308 | for any books and currency, a win larger than the casino's balance in that currency succeeds and drives that balance negative |
| Ledger.WinCreditCanOverdrawPlayer | OLD_models.py:290-308 | for any books and currency, a negative win larger in size than the player's balance in that currency succeeds and drives that balance negative |
| Ledger.Apply | OLD_models.py:248-310 | one debit or credit, a failed one leaving the books as they were, conserves each currency's player-plus-casino total |
| Ledger.ApplyAllConserves | OLD_models.py:248-310 | any sequence of debits and credits conserves each currency's player-plus-casino total |
| Ledger.ApplyAllKeepsPlayerSolvent | OLD_models.py:252-310 | debits and non-negative credits never drive a non-negative player balance below zero |
| Ledger.CasinoBankroll.constructor | OLD_models.py:227-240 | a new bankroll has PLAY=100, ETH=0, BTC=0 and the default flag and label |
| Ledger.ProfileUser.constructor | OLD_models.py:227-230 | a new profile has PLAY=100, ETH=0, BTC=0 |
| Ledger.ProfileUser.ReduceFundsBet | OLD_models.py:248-286 | in-place debit agrees with BetDebit; on any error neither account changes |
| Ledger.ProfileUser.GainFunds | OLD_models.py:290-310 | in-place credit agrees with WinCredit; on a bad ticker neither account changes |
| Ledger.ProfileUser.DepositFundsWallet | OLD_models.py:313-326 | in-place deposit agrees with WalletDeposit; on a bad ticker nothing changes |
| FlashBets.AccumulateCountsEveryBet | views_FlashBetDice.py:81-94 | winnings + losses equals the number of bets |
| FlashBets.AccumulateCountsWins | views_FlashBetDice.py:89-91 | winnings equals the number of rolls with min_range <= roll < max_range |
| FlashBets.AccumulateNetProfit | views_FlashBetDice.py:79-94 | net profit = winnings * (bet * payout - bet) - losses * bet |
| FlashBets.AllMissesLoseEveryStake | views_FlashBetDice.py:92-94 | when every roll misses the range: no wins, every bet lost, net profit = -(number of bets) * bet |
| FlashBets.SelectRollerKey | views_FlashBetDice.py:67-71 | a revealed seed is rotated to the fresh seed (committed, hidden, nonce 0) and the roller is keyed with that plaintext; a hidden seed is left as is and the roller is keyed with the stored encrypted field |
| FlashBets.RollBets | views_FlashBetDice.py:81-113 | the nonces used are k, k+1, ..., k+n-1, the nonce ends at k+n, the totals are Accumulate of those rolls, and no other seed field changes |
| FlashBets.ProcessFlashBet | views_FlashBetDice.py:67-132 | combines the two above with one dice setup for the whole batch; reports exactly the accumulated winnings, losses and net profit; leaves both balances unchanged |
| SeedViews.AllowedMethods | views_seeds_provablyfair.py:31-36 | the allowed methods are exactly ["GET", "PUT"] |
| SeedViews.Create | views_seeds_provablyfair.py:38-42 | every create answers 405 |
| SeedViews.UpdatedFields | views_seeds_provablyfair.py:120-153 | a failed validation is refused; after a valid one, the save fails exactly when a written visible value is a string other than "t", "True", "1", "f", "False", "0"; after a success, absent, empty, "string" or falsy values leave their field alone; a written string client seed is stored as sent, and any written client seed as its str() conversion (JSON true as "True"); JSON true, "t", "True" and "1" set visible to true, JSON booleans never hide, and "f", "False" and "0" set it to false |
| SeedViews.UpdateCanHideRevealedSeed | views_seeds_provablyfair.py:143-153 | an update with visible "False" hides a revealed seed again and keeps its client seed |
| SeedViews.Update | views_seeds_provablyfair.py:116-155 | the in-place update leaves exactly the client seed and visibility UpdatedFields gives, or on an error changes nothing; server seed, commitment and nonce never change |
| SeedViews.ChangeServerSeed | views_seeds_provablyfair.py:89-110 | rotates with a fresh token: nonce 0, hidden, the returned hash is the new commitment H(token), the client seed is kept |
| SeedViews.RevealServerSeed | views_seeds_provablyfair.py:59-84 | returns the decrypted seed and only flips visible to true; nonce, seeds and commitment are unchanged |

## Left out

- Database persistence (`save`, `update_fields`, querysets, `save_model_instance`): saves are plain field assignments, and the caller's seed and accounts are passed in rather than looked up. The "no seed found" case of a lookup is therefore not modelled.
- `transaction.atomic` and any serialisation between concurrent requests: the model is sequential.
- The bodies of the hash, encrypt and decrypt helpers, of `token_hex`, of the provably-fair roller and of `compute_dice_setup`: their code is not part of this model, so they are uninterpreted. The shape of a token (64 hex characters) is not constrained.
- `hash_server_seed` and the `hashed_server_seed` field of the reveal response: whether that hash equals the stored commitment depends on two hash helpers whose code is not part of this model.
- The exception-to-400 paths of the seed views, the serializers and their validation, `Response` construction, authentication, permissions, `get_queryset` and `get_serializer_class`.
- The `except ValueError` settlement branch of the flash-bet loop: its `try` body only compares and adds, so it cannot raise and the branch is unreachable. The history record written by `serializer.save`, and the invalid-request response, are left out too.
- Timing (`time.time`, `time_run` in the response), `print` calls and loading `SEEDS_KEY` from the environment: the key is a parameter.
- Database field limits: amounts are exact reals without the Decimal fields' rounding or overflow (18 digits, 8 decimal places). `nonce` is an unbounded `nat`, not a `PositiveIntegerField` capped at 2147483647 by most databases. The string fields are not limited to 300 characters, so `UpdatedFields` stores a client seed of any length, where a database would reject or truncate a longer one.
- SeedViews.Update: the serializer's validation is a boolean parameter, because the serializer's code is not part of this model. Request values are strings or JSON booleans; JSON numbers are not modelled. The string values of `visible` are modelled: "t", "True" and "1" reveal, "f", "False" and "0" hide a revealed seed again, and any other string (such as "true" or "no") makes the save fail with nothing written. The in-memory attributes assigned before the save are local values, not fields of the seed object.
- User and UserManager, the Profile_User string form, the profile-creation signal, and the Wallet, deposit, withdraw, bet-history, strategy and FlashBet declarations: these are data declarations or authentication plumbing with no logic.
