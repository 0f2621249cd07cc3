# Banking app: account and transfer model

A Dafny model of the in-memory account layer of a small Streamlit banking
demo (`bank_streamlit.py`). It covers:

- accounts of three kinds: plain, savings with an interest rate, and checking;
- deposit, withdrawal, balance query, account summary and interest accrual;
- the `Transaction` that withdraws from one account and deposits into another.

Amounts are exact `real`s. Every message the app shows, and the
`InsufficientFundsError` it raises, becomes a returned outcome value.

Two modules:

- `BankSpec` (`bank_spec.dfy`) gives each operation as a function from the old
  balance to an outcome and a new balance. Each function's contract states the
  rule: when it succeeds, what the balance becomes, and which error it reports
  otherwise. The module also holds the lemmas: the balance stays non-negative
  over any run of operations, and withdrawal undoes deposit and vice versa.
- `Bank` (`bank.dfy`) has the classes `Account` and `Transaction`. Their
  methods change `balance` in place. Each method's `ensures` ties the new state
  and the returned outcome to the matching `BankSpec` function. `Execute`
  allows the source and the target to be the same object, as the app does.

Withdrawal checks in the same order as the code. An amount above the balance
yields `InsufficientFunds`, even when it is zero or negative (possible only
when the balance itself is negative). Only after that check is a non-positive
amount refused as invalid.

Refusing a non-positive amount only reports an error. It does not raise, and
`execute` catches only `InsufficientFundsError` (bank_streamlit.py:27, 60-62).
So a transfer of a non-positive amount that does not exceed the balance still
runs the deposit leg and ends with the success line. Both legs report a
validation error and no balance changes. This holds between two accounts
(`TransferEffect`) and from an account to itself (`SelfTransferEffect`).
Nothing in `Transaction` requires the amount to be positive, and neither does
the model.

## Model

| member | source | states |
|---|---|---|
| `BankSpec.DepositEffect` | bank_streamlit.py:13-18 | success exactly when amount > 0; then the balance grows by exactly the amount and the report carries the new balance; otherwise a validation error and no change; never lowers the balance |
| `BankSpec.WithdrawEffect` | bank_streamlit.py:3-27 | InsufficientFunds (carrying the current balance) exactly when amount > balance, checked first; success exactly when 0 < amount <= balance, lowering the balance by the amount; validation error exactly when amount <= 0 and amount <= balance; no change unless it succeeds; a non-negative balance stays non-negative |
| `BankSpec.InterestEffect` | bank_streamlit.py:40-44 | interest is balance * rate and is added to the balance; the report carries both; with balance >= 0 and rate >= 0 the balance never decreases |
| `BankSpec.TransferEffect` | bank_streamlit.py:57-63 | between distinct accounts: the sum of the two balances is conserved in every case; failure exactly when amount > source balance, with both unchanged and the reason InsufficientFunds; for 0 < amount <= source balance the source loses and the target gains exactly the amount; for a non-positive amount within the balance, both unchanged and both legs report validation errors under a success outcome |
| `BankSpec.SelfTransferEffect` | bank_streamlit.py:57-63 | a transfer from an account to itself leaves its balance unchanged in every case; it fails exactly when amount > balance, with reason InsufficientFunds; for 0 < amount <= balance both legs succeed; for a non-positive amount within the balance both legs report validation errors under a success outcome |
| `BankSpec.AccountInfo` | bank_streamlit.py:32-33 | the summary starts with "Account Number: " and contains the account number, the holder and the balance text |
| `BankSpec.RunStaysNonNegative` | bank_streamlit.py:13-43 | any sequence of deposits, withdrawals and interest accruals keeps a non-negative balance non-negative when the rate is not negative |
| `BankSpec.RunWithoutWithdrawalNeverDecreases` | bank_streamlit.py:13-43 | a sequence of operations with no withdrawal never ends below its starting balance when balance and rate are non-negative |
| `BankSpec.DepositThenWithdraw` | bank_streamlit.py:13-27 | from a non-negative balance, withdrawing a just-deposited positive amount succeeds and restores the balance |
| `BankSpec.WithdrawThenDeposit` | bank_streamlit.py:13-27 | depositing a just-withdrawn amount (0 < amount <= balance) succeeds and restores the balance |
| `Bank.Account.constructor` | bank_streamlit.py:8-11 | a plain account with the given number, holder and initial balance (default 0) |
| `Bank.Account.SavingsAccount` | bank_streamlit.py:35-38 | a savings account with the given initial balance (default 0) and rate (default 0.01) |
| `Bank.Account.CheckingAccount` | bank_streamlit.py:46-48 | a checking account: a type tag with no behaviour beyond a plain account |
| `Bank.Account.Deposit` | bank_streamlit.py:13-18 | new balance and report are those of `DepositEffect` on the old balance; preserves the non-negative invariant |
| `Bank.Account.Withdraw` | bank_streamlit.py:20-27 | new balance and report are those of `WithdrawEffect` on the old balance; preserves the non-negative invariant |
| `Bank.Account.GetBalance` | bank_streamlit.py:29-30 | returns the current balance and modifies nothing |
| `Bank.Account.DisplayAccountInfo` | bank_streamlit.py:32-33 | a pure read; the text contains the number, the holder and the rendered balance |
| `Bank.Account.CalculateInterest` | bank_streamlit.py:40-44 | only on a savings account; new balance and report are those of `InterestEffect` at the account's rate; preserves the invariant and never lowers a non-negative balance |
| `Bank.Transaction.constructor` | bank_streamlit.py:51-55 | records the id, both account references and the amount |
| `Bank.Transaction.Execute` | bank_streamlit.py:57-63 | withdraw, then deposit only if the withdrawal did not raise; for distinct accounts the result is `TransferEffect` and for one aliased account `SelfTransferEffect`; each account's non-negative invariant is preserved |

## Left out

- `main` and every Streamlit call (bank_streamlit.py:65-153). These are
  presentation and form input. Their messages are the returned outcome values.
- The `accounts` registry and its "Account not found" checks. The registry
  belongs to the caller and is rebuilt on every rerun.
- The `isinstance` gate before interest calculation (bank_streamlit.py:132).
  It becomes the precondition `kind.Savings?` on `CalculateInterest`. In the
  `Run` lemmas, interest on a non-savings account leaves the balance
  unchanged, which is what the refused request does.
- Floating-point rounding. Balances, amounts and rates are exact reals.
- How Python turns a float into text in the account summary. It is the
  parameter `renderBalance` of `DisplayAccountInfo`, and the exact summary
  text is not compared with Python's output.
- Rejecting a second `execute` of the same `Transaction`. The code has no such
  guard: each call is one more transfer, and the model does the same.
- Account number, holder, kind and the transaction's fields are `const`. The
  code never reassigns them after construction.
