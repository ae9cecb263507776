# Banking ledger core of `desafio_02.py`, in Dafny

This project models the account and transaction logic of a small console
banking program. Clients (`Cliente`) hold accounts. An account is either a
plain `Conta` or a `ContaCorrente` (checking account). Each account keeps a
balance (`saldo`) and an append-only history (`Historico`) of movement
lines. Two transactions, `Deposito` and `Saque`, ask the account to move
money. They record a line only when the account accepts. A client may only
move its own accounts.

Modules, one per component:

- `Amounts` (amounts.dfy): amounts are whole cents. `FormatCents` is the
  two-decimal text of `f"{valor:.2f}"`, and `ParseCents` reads it back.
- `Histories` (history.dfy): `History` with `Add` (`adicionar_transacao`)
  and `Render` (`__str__`), and `Join` (`"\n".join`).
- `Policy` (policy.dfy): the pure rules. `DepositOutcome` and
  `WithdrawOutcome` give the answer to a request. `Next` gives the account
  state after one transaction and `Run` after a sequence. The lemmas about
  sequences of transactions are here.
- `Accounts` (accounts.dfy): the classes `Client` and `Account`, the
  transaction step `Register`, and `OpenAccount` / `OpenCheckingAccount`
  (`nova_conta`). Python's `Conta` and `ContaCorrente` are one class. Its
  constant `kind` (`Standard` or `Checking(limit, maxWithdrawals)`) picks
  the withdrawal rule, as the override of `sacar` does. Each mutating method
  is proved against the `Policy` functions.
- `Lookup` (lookup.dfy): `filtrar_usuario` and `buscar_conta_por_numero`,
  both built on one generic "filter, then take the first" function.
- `Scenarios` (scenarios.dfy): client methods that follow concrete sequences of requests
  using only the contracts above. Examples: -5.00 on an empty account is
  refused as an invalid amount; 600.00 is over the 500.00 ceiling; the
  fourth withdrawal is refused; a deposit of 100.00 leaves one line reading
  `"<timestamp> - Depósito: R$ 100.00"`.

Where the program prints a message and returns `False`, the model returns
`Rejected(reason)`. There is one `Reason` per printed failure message.
`Accepted` stands for `True`.

The history descriptions follow the code's own text (`"Depósito: R$ …"`,
`"Saque: R$ …"`), not an English rendering of it.

## Model

| member | source | states |
|---|---|---|
| `Amounts.FormatCents` | desafio_02.py:47 | the two-decimal text of an amount: a `.` before the last two digits, and a leading `-` exactly when the amount is negative |
| `Amounts.FormatCentsRoundTrip` | desafio_02.py:58 | for whole-cent amounts, reading the two-decimal text back gives the amount in cents again, so the text loses nothing |
| `Amounts.FormatCentsInjective` | desafio_02.py:47 | for whole-cent amounts, two different amounts never produce the same amount text |
| `Histories.Movement.Line` | desafio_02.py:26 | every stored line `"<timestamp> - <description>"` contains the separator dash |
| `Histories.Join` | desafio_02.py:31 | the joined text opens with the first line, and its length is the lines' total length plus one newline for each gap between lines |
| `Histories.JoinSnoc` | desafio_02.py:31 | joining one more line extends the old text by a newline and that line, so lines appear in insertion order |
| `Histories.JoinKeeps` | desafio_02.py:31 | the joined text contains every character of every line |
| `Histories.History.constructor` | desafio_02.py:21-22 | a new history has no lines |
| `Histories.History.Add` | desafio_02.py:24-26 | append-only: exactly one line `"<timestamp> - <description>"` is appended, the earlier lines are unchanged, and the rendered text grows by that line |
| `Histories.History.Render` | desafio_02.py:28-31 | the text is the empty-state message if and only if there are no lines |
| `Policy.Transaction.Description` | desafio_02.py:44-59 | the description starts with the kind's label (`"Depósito: R$ "` or `"Saque: R$ "`), continues with the amount text, and that text shows a minus sign exactly for a negative amount |
| `Policy.DescriptionReadsBack` | desafio_02.py:47 | after the label, the rest of a description reads back to the transaction's amount |
| `Policy.DescriptionInjective` | desafio_02.py:58 | for whole-cent amounts, two different transactions never have the same description, so a history line names its deposit or withdrawal and its amount |
| `Policy.DepositOutcome` | desafio_02.py:100-105 | a deposit is accepted iff the amount is positive; the only refusal reason is an invalid amount |
| `Policy.WithdrawOutcome` | desafio_02.py:138-154 | a withdrawal is accepted iff `0 < amount <= balance` and, for a checking account, `amount <= limit` and `count < maxWithdrawals`; each rejection reason holds exactly when every earlier check passed and its own check fails (invalid, then insufficient, then over limit, then count) |
| `Policy.Next` | desafio_02.py:99-116 | a rejected request changes nothing; an accepted one moves the balance by exactly the signed amount and counts one withdrawal on a checking account; the invariant (balance ≥ 0, count between 0 and its ceiling) is preserved and the count never goes down |
| `Policy.WithdrawUndoesDeposit` | desafio_02.py:99-116 | withdrawing the amount just deposited restores a standard account; on a checking account it also counts one withdrawal, and it is refused as over the limit when the amount exceeds the ceiling |
| `Policy.RunKeepsInv` | desafio_02.py:99-154 | after any sequence of deposits and withdrawals, accepted or refused, the balance is still ≥ 0 and the count still within its ceiling |
| `Policy.OpeningNeverNegative` | desafio_02.py:87 | starting from a new account (`saldo = 0`), the balance is never negative, whatever the sequence of transactions |
| `Policy.RunBalance` | desafio_02.py:103-114 | the final balance is the initial balance plus the accepted deposits minus the accepted withdrawals |
| `Policy.RunCountsWithdrawals` | desafio_02.py:148-152 | a checking account's counter equals its initial value plus the number of accepted withdrawals, and never goes down |
| `Policy.AtMostMaxWithdrawals` | desafio_02.py:126-130 | a new checking account accepts at most `limite_saques` withdrawals over its whole life (none if that ceiling is negative) |
| `Policy.ExhaustedStaysExhausted` | desafio_02.py:148-150 | once the count has reached its ceiling, every later withdrawal is refused whatever the balance and whatever happens in between; one that passes the other checks is refused for the count |
| `Accounts.Client.constructor` | desafio_02.py:63-68 | a new client has the given identity and no accounts |
| `Accounts.Client.AddAccount` | desafio_02.py:76-77 | the account is appended to the client's accounts; nothing is removed |
| `Accounts.Client.Perform` | desafio_02.py:70-74 | an account not held by the client (by identity) is refused as not owned, and its balance, counter and history are unchanged; an owned account gets exactly the registered transaction's answer, state and history |
| `Accounts.HistoryLineInjective` | desafio_02.py:26 | for whole-cent amounts and a given timestamp, a history line `"<timestamp> - <description>"` determines the transaction it records (kind and amount) |
| `Accounts.Account.constructor` | desafio_02.py:86-91 | a new standard account has balance 0, an empty history of its own and the given branch, number and owner |
| `Accounts.Account.NewChecking` | desafio_02.py:126-130 | a new checking account has the given ceilings (defaults 500.00 and 3), balance 0, count 0 and an empty history |
| `Accounts.Account.Deposit` | desafio_02.py:99-105 | accepted iff the amount is positive; then the balance grows by exactly the amount, otherwise it is unchanged; the invariant is kept |
| `Accounts.Account.WithdrawStandard` | desafio_02.py:107-116 | refuses a non-positive amount, then an amount above the balance; otherwise the balance drops by exactly the amount |
| `Accounts.Account.WithdrawChecking` | desafio_02.py:138-154 | the four checks in their fixed order; on success the balance drops by the amount and the counter grows by one, on failure both are unchanged |
| `Accounts.Account.Withdraw` | desafio_02.py:56 | the withdrawal the account's class selects, with the answer and new state given by `WithdrawOutcome` and `Next` |
| `Accounts.Register` | desafio_02.py:44-59 | returns exactly the account's answer; the account moves as `Next` says; one history line on success and none on failure |
| `Accounts.OpenAccount` | desafio_02.py:93-97 | a fresh standard account with balance 0 (branch `"0001"` by default), appended to the client's accounts |
| `Accounts.OpenCheckingAccount` | desafio_02.py:132-136 | a fresh checking account with the given or default ceilings and balance 0, appended to the client's accounts |
| `Lookup.Matching` | desafio_02.py:172 | the comprehension keeps every match and only matches, and the first element kept is the first match in the list |
| `Lookup.MatchingAppend` | desafio_02.py:172 | filtering a concatenation is the concatenation of the filtered parts, so matches keep their order and their number |
| `Lookup.MatchingSingle` | desafio_02.py:172 | a single element is kept exactly when its key matches |
| `Lookup.FirstMatch` | desafio_02.py:173 | `None` iff no element matches; otherwise the first matching element |
| `Lookup.FindUser` | desafio_02.py:171-173 | the first client with the CPF, or `None` iff no client has it |
| `Lookup.FindAccountByNumber` | desafio_02.py:203-205 | the first account with the number, or `None` iff no account has it |

## Left out

- The console layer is not modelled: `menu`, `main`, `criar_usuario`, `criar_conta`, `listar_contas`, `selecionar_conta_do_cliente` and `Conta.exibir_extrato`. Besides reading input, parsing it with `int`/`float` and printing, this layer keeps the registry lists `usuarios` and `contas`, refuses a duplicate CPF in `criar_usuario`, opens checking accounts in `criar_conta`, numbers accounts as `len(contas) + 1` in `main`, and filters a client's own accounts by number in `selecionar_conta_do_cliente`. All of this lies outside the modelled core; the model provides `filtrar_usuario` (called at desafio_02.py lines 158, 178, 241, 261 and 281) and `OpenCheckingAccount`. `buscar_conta_por_numero` is modelled too, although nothing in the program calls it.
- `print` calls are not modelled. Each failure message becomes a `Reason` value in the returned `Outcome`.
- `datetime.now()` is not modelled. The formatted timestamp is a parameter of `History.Add`, `Register` and `Client.Perform`.
- Amounts are whole cents, not Python floats. Sub-cent amounts, float rounding in `saldo += valor` / `saldo -= valor`, and `inf`/`nan` (which `float()` accepts) are not modelled. The default ceiling 500.0 is 50000 cents.
- Amounts.FormatCentsRoundTrip: holds only for whole-cent amounts. In the program an amount is any float, and `:.2f` rounds it to the cent. Two different amounts such as 10.001 and 10.004 then show the same text, and an accepted deposit of 0.004 is recorded as `"Depósito: R$ 0.00"`. The model cannot produce that line, because its smallest accepted deposit is one cent.
- Amounts.FormatCentsInjective: for the same reason, holds only for whole-cent amounts; in the program two different amounts can share a two-decimal text.
- Policy.DescriptionInjective: holds only for whole-cent amounts; in the program two different transactions of the same kind can share a description after rounding.
- Accounts.HistoryLineInjective: holds only for whole-cent amounts; in the program two different transactions with the same timestamp can leave the same history line.
- `Accounts.Account`: the withdrawal counter also exists on standard accounts, where it stays 0; Python's `Conta` has no such attribute.
- `PessoaFisica` is not modelled; it only forwards to `Cliente`'s constructor.
- The invariant on the counter is `count == 0 || count <= limite_saques` rather than `0 <= count <= limite_saques`. The constructor accepts a negative `limite_saques`, and then the count stays 0.
- The registry lists `usuarios` and `contas` held by `main` are not modelled; the lookups take them as sequences.
