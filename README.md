# A toy banking ledger, in three generations

The repository is a student banking system in Python. People hold accounts
at banks. Money moves by deposit, withdrawal and transfer. Every account
carries a score that deposits raise and withdrawals lower. Every bank
keeps a vault and a count of its clients.

The ledger exists three times:

- `SUB.py`, the Tkinter application: transaction objects, a system state
  that is pickled after every change, and save files named from a date
  stamp;
- `system_main.py`, the console version: the same accounts and banks,
  with ledger methods on `System` that catch `KeyError` themselves;
- `teste.py`, the first draft: no withdrawal limits, no fee, and clients
  kept in a list.

`sub_utils.py` holds the cpf formatter, the save naming step and four
error classes. `SUB.py` imports nothing from it: it has its own copy of
the formatter and of the naming step, with the same code, and the model
uses one definition of each. No file raises or catches the error classes,
so `SubUtils.LedgerError` is a declaration only and has no row below.

This project models the ledger logic of all four files in Dafny and
proves what each operation does, error paths included. It has one module
per source file:

- `sub_utils.dfy` (`SubUtils`): `cpf_string` with its round trip back
  to the number, the save file name, and the error kinds as a datatype.
- `ledger.dfy` (`Ledger`): the `Account`, `Person` and `Bank` classes
  that `SUB.py` and `system_main.py` both define, and the withdrawal rule
  (`DrawVerdict`). The two files' classes differ in one field:
  `SUB.py`'s `Account` has `is_limited` (`SUB.py:82`), which
  `system_main.py`'s lacks; the model keeps the field and the console
  never sets it. It also holds:
  - the transfer surcharge;
  - the retry loop that draws a fresh transaction id;
  - the loop of `remove_person` that closes a person's accounts bank by
    bank (`CloseAccounts`), which both ledgers run, and the key order
    that decides where a missing bank stops it (`Listed`, `Reached`).
- `gui_ledger.dfy` (`GuiLedger`): `SUB.py`'s transaction classes,
  `SysData` and the ledger parts of `System`. This includes the save and
  load steps and the existence checks `__person_exists` and
  `__person_and_account_exists` (`PersonExists`,
  `PersonAndAccountExists`). These are plain predicates: the handlers'
  contracts use them as the guards that decide whether anything
  happens, and the popups they show are left out.
- `console_ledger.dfy` (`ConsoleLedger`): `system_main.py`'s
  `Transaction` record and `System`.
- `prototype.dfy` (`Prototype`): `teste.py`.

Objects whose fields the source updates in place are Dafny classes. The
methods' `modifies` clauses name exactly the accounts and banks an
operation can touch.

A transfer's postcondition states every balance, score and vault it
changes. These statements also hold when the source and target are the
same account or the same bank.

When a `KeyError` stops a `try` block half way, the model keeps the
effects made before the error and states them:

- `system_main.py`'s `make_transfer` stores the transaction before the
  attempt, so a failed transfer is stored too;
- `teste.py`'s `make_transaction` leaves the origin debited when the
  target account is missing.
- `remove_person` in both ledgers stops at the first account key that
  names no bank. The accounts closed before it stay closed and the
  person stays. `SUB.py` lets that `KeyError` escape its handler, so
  nothing is saved either.

Outside inputs are parameters:

- the clock is a time of day in microseconds, with opaque date strings;
- `random.randint` is a stream of draws, `draws: seq<int>`. The retry
  loop walks it, and the caller promises that some draw in it is free.

Money, fees and scores are exact `real` numbers.

## Model

| member | source | states |
|---|---|---|
| SubUtils.CpfString | sub_utils.py:30-34 | the formatted cpf has 14 characters, with `.` at positions 3 and 7 and `-` at position 11 |
| SubUtils.PaddedCpf | sub_utils.py:31-32 | zero padding never leaves fewer than eleven characters |
| SubUtils.UnformatCpf | sub_utils.py:31-33 | taking the three separators out gives back the first eleven characters of the padded number |
| SubUtils.CpfRoundTrip | sub_utils.py:30-34 | for 0 <= cpf < 10^11: the zeros added are 11 minus the digit count, every other character is a digit, and reading the digits back gives the cpf |
| SubUtils.CpfDigitsOnly | sub_utils.py:31-33 | for any cpf that is not negative, every character other than the separators is a digit |
| SubUtils.CpfTruncates | sub_utils.py:31-33 | a cpf of twelve or more digits gets no padding, and only its first eleven digits appear |
| SubUtils.ParseNatToString | sub_utils.py:31 | reading str(n) back as decimal digits gives n |
| SubUtils.SaveName | sub_utils.py:40 | a first save is named "SAVE_" + stamp + ".syss" |
| SubUtils.SaveNameIdempotent | sub_utils.py:38-41 | the second save keeps the name the first save chose, whatever its stamp |
| SubUtils.SaveSlot.SaveSys | sub_utils.py:37-44 | after the step has_save holds, the name changes only on the first call, and the path is the save folder plus the name |
| Ledger.DrawVerdict | SUB.py:98-135 | a withdrawal is refused for funds exactly when the amount exceeds the balance; granted ones leave a non-negative balance; unlimited ones are granted iff the balance covers them; limited ones over the night cap at night, or over the day cap, are refused; each refusal names its cause |
| Ledger.TaxedValue | system_main.py:343 | across banks the withdrawal is value*(1 + fee), within one bank it is the value, and the surcharge is fee*value or nothing |
| Ledger.DrawFreshId | SUB.py:371-376 | the id is the first draw that is not a key yet: it lies in [0, 999999999], it is not taken, and every earlier draw was taken |
| Ledger.Account.constructor | SUB.py:70-82 | a new account holds the wallet amount with score 100 and is not limited |
| Ledger.Account.Deposit | SUB.py:84-96 | the balance grows by the amount, the score by a tenth of it, and the new balance is returned |
| Ledger.Account.Draw | SUB.py:98-135 | it succeeds iff DrawVerdict grants it; on success the balance drops by the amount (staying >= 0) and the score by 0.15 of it; on failure nothing changes |
| Ledger.Person.constructor | SUB.py:139-149 | a new person has the name, the cpf and no accounts |
| Ledger.Person.AddAccount | SUB.py:151-159 | a fresh account holding the value with score 100 sits under the bank name, replacing any there, and no other entry changes |
| Ledger.Person.RemoveAccount | SUB.py:161-168 | exactly the account at that bank is dropped |
| Ledger.Bank.constructor | SUB.py:286-301 | a new bank has the name and fee, no clients, count 0 and vault 10000 |
| Ledger.Bank.OpenAccount | SUB.py:303-311 | the client is registered under its cpf, the count rises by one, and the client gets a fresh empty account under the bank's name, replacing any there |
| Ledger.Bank.CloseAccount | SUB.py:313-324 | when the registered client holds an account here, the account and the registration go and the count drops by one; otherwise nothing is removed and the count rises by one |
| Ledger.Reached | system_main.py:235-237 | the loop gets through the longest prefix of keys naming a bank, and stops at the first that does not |
| Ledger.PrefixOfListed | system_main.py:235-237 | a loop that runs to the end has visited every key of the account map |
| Ledger.ClosesEverything | SUB.py:303-324 | when every bank of the person's accounts has the person itself registered, as open_account leaves it, the loop over the listed keys reaches its end, every close_account finds the person, and all of the person's accounts are dropped |
| Ledger.CloseAccounts | SUB.py:431-432 | after closing at every key, each bank where the person was a registered holder has lost the registration and counts one less, every other bank counts one more, and each owner has lost exactly the accounts closed for them |
| GuiLedger.Clamped | SUB.py:199-200 | a negative value becomes 0 and any other value is kept |
| GuiLedger.LastFive | SUB.py:362 | path[-5:] has at most five characters and, on a path of five or more, is its suffix |
| GuiLedger.IsSaveFileIsSuffix | SUB.py:362 | the load check accepts a path iff the path ends in ".syss" |
| GuiLedger.SaveNamePassesLoadCheck | SUB.py:355-362 | every name a save produces passes the load check |
| GuiLedger.Deposit.constructor | SUB.py:190-204 | the value is clamped at 0, and the depositor and bank are the ones given |
| GuiLedger.Deposit.Make | SUB.py:206-213 | it always succeeds and stamps the date; the account gains the value (the score a tenth of it) and so does the vault |
| GuiLedger.Draw.constructor | SUB.py:217-231 | the value is clamped at 0, and the limit flag is copied from the account, where it is False |
| GuiLedger.Draw.Make | SUB.py:233-241 | success is DrawVerdict's grant; only then are the date stamped and the value taken from account and vault; a refusal changes nothing |
| GuiLedger.Transfer.constructor | SUB.py:245-265 | the parties are the ones given, the value is kept, and the limit flag is copied from the account |
| GuiLedger.Transfer.Make | SUB.py:267-282 | the taxed value is withdrawn iff DrawVerdict grants it; then the receiver gains the value and the origin vault pays it to the target vault; the statements hold also for one account or one bank |
| GuiLedger.SysData.constructor | SUB.py:328-335 | the state starts empty and keeps every bank under its name and every person under its cpf |
| GuiLedger.System.constructor | SUB.py:339-350 | the system starts with empty data and no save |
| GuiLedger.System.SaveSys | SUB.py:352-359 | the save step names the file on the first save only, and returns the path the snapshot is written to |
| GuiLedger.System.LoadSys | SUB.py:361-369 | the snapshot replaces the data iff the path ends in ".syss"; a keyed snapshot keeps the data keyed |
| GuiLedger.System.GenerateTransactionId | SUB.py:371-379 | a fresh id in [0, 999999999], the first free draw, maps to the transaction and no other entry changes |
| GuiLedger.System.CreateBank | SUB.py:381-394 | an empty name changes nothing; otherwise a fresh bank with fee percent/100 replaces any bank of that name, and the system saves |
| GuiLedger.System.RemoveBank | SUB.py:396-407 | an empty name changes nothing; a named bank is removed and the system saved iff it counts no clients |
| GuiLedger.System.CreatePerson | SUB.py:409-419 | a fresh person without accounts replaces any with that cpf, and the system saves |
| GuiLedger.System.SysOpenAccount | SUB.py:488-506 | with a bank and a known person, the bank registers the person, counts one more, and installs a fresh account with balance 0 and score 100; otherwise nothing changes and nothing is saved |
| GuiLedger.System.RegisteredPersonClosesAll | SUB.py:429-434 | a person registered at the bank of each of its accounts: the loop reaches the end of the order, closes every account key, every close_account finds the person, and a person holding an account is one of the clients the loop changes |
| GuiLedger.System.CloseInOrder | SUB.py:430-432 | each key reached before the first missing bank is closed at its bank as CloseAccounts states; a person registered at the bank of each of its accounts is left with no account |
| GuiLedger.System.ClosePerson | SUB.py:429-434 | the loop as CloseInOrder states; the person is removed iff every key named a bank, and then the keys closed are all the keys listed; a registered person always finishes with no account |
| GuiLedger.System.RemovePerson | SUB.py:421-438 | a name that does not match changes nothing; otherwise the accounts are closed in the order given, and the person is removed and the system saved only when the loop reached the end, so a missing bank leaves the person, the closed accounts closed and no save; a person registered at the bank of each of its accounts is removed with no account left |
| GuiLedger.System.MakeDeposit | SUB.py:508-535 | with a bank and an account found, a stored and succeeded deposit of the clamped value credits account and vault; otherwise nothing is stored or saved and neither the account nor the bank changes |
| GuiLedger.System.MakeDraw | SUB.py:537-565 | a found account gives a draw; only a granted one gets the date, a fresh stored id and the debits, and only then is the system saved; with no account found, nothing is stored or saved and neither the account nor the bank changes |
| GuiLedger.System.MakeTransfer | SUB.py:567-610 | with both accounts found, a transfer is made as Transfer.Make states, with every balance, score and vault that a success changes, also for one account or one bank; only a successful one is stored under a fresh id and saved; a failed one changes no balance, score or vault; with a bank unchosen or an account missing, nothing is stored or saved and no account or bank changes |
| ConsoleLedger.Transaction.constructor | system_main.py:105-127 | the record holds the parties and the value, with id 0, no date and not succeeded |
| ConsoleLedger.DepositInto | system_main.py:279-280 | the account gains the value and a tenth of it in score, the new balance is returned, and a found bank's vault gains the value |
| ConsoleLedger.DrawFrom | system_main.py:300-305 | a granted withdrawal debits the account; the value is returned, and taken from the vault, only when the bank is found |
| ConsoleLedger.MoveFunds | system_main.py:347-351 | the transfer succeeds iff the draw is granted, the bank found and the taxed value non-zero; then the origin vault nets the value and the target gets it |
| ConsoleLedger.System.constructor | system_main.py:169-178 | the system starts with no transactions, banks or people |
| ConsoleLedger.System.CreateBank | system_main.py:202-210 | a fresh bank with the fee as given replaces any bank of that name |
| ConsoleLedger.System.RemoveBank | system_main.py:212-220 | the bank goes iff it exists and counts no clients; an absent name changes nothing |
| ConsoleLedger.System.CreatePerson | system_main.py:222-231 | a fresh person without accounts replaces any with that cpf |
| ConsoleLedger.System.ClosedKeys | system_main.py:235-237 | the keys the loop closes all name banks |
| ConsoleLedger.System.RegisteredPersonClosesAll | system_main.py:233-242 | a person registered at the bank of each of its accounts: the loop reaches the end of the order, closes every account key, every close_account finds the person, and a person holding an account is one of the clients the loop changes |
| ConsoleLedger.System.CloseInOrder | system_main.py:235-237 | each key reached is closed at its bank as CloseAccounts states; a person registered at the bank of each of its accounts is left with no account |
| ConsoleLedger.System.RemovePerson | system_main.py:233-242 | an unknown cpf changes nothing; a loop that reaches a missing bank keeps the person with the banks before it closed; a finished loop closes every account and removes the person; a person registered at the bank of each of its accounts is removed with no account left |
| ConsoleLedger.System.SysOpenAccount | system_main.py:254-263 | the bank registers the person, counts one more, and installs a fresh empty account |
| ConsoleLedger.System.SysDeposit | system_main.py:265-285 | with the account found, the account gains the value and its balance is returned; otherwise 0 is returned and no account changes; the vault gains the value only when both were found |
| ConsoleLedger.System.SysDraw | system_main.py:287-311 | without the account nothing changes and 0 is returned; a granted draw debits the account and, with the bank found, the vault, and returns the value |
| ConsoleLedger.System.GenerateTransactionId | system_main.py:313-320 | a fresh id in [0, 999999999], the first free draw, maps to the transaction and no other entry changes |
| ConsoleLedger.System.Register | system_main.py:336-340 | the transaction is stamped and stored under a fresh id before any attempt, not yet succeeded |
| ConsoleLedger.System.TryTransfer | system_main.py:342-355 | a missing origin bank across banks, a missing person or a missing origin account ends the attempt with nothing changed; otherwise the money moves as MoveFunds states, and the transaction map is untouched |
| ConsoleLedger.System.MakeTransfer | system_main.py:322-357 | the transaction is always stored under a fresh id; it succeeded iff the taxed draw was granted at a found bank and was non-zero; every balance, score and vault is stated, also for one account or one bank |
| Prototype.RemoveFirst | teste.py:71 | list.remove keeps an absent element's list, and otherwise shortens it by one |
| Prototype.FirstIndex | teste.py:71 | the first position holding the element |
| Prototype.RemoveFirstAt | teste.py:71 | list.remove cuts out exactly the first occurrence |
| Prototype.RemoveFirstMultiset | teste.py:71 | list.remove takes out one copy of the element if there is one, and nothing else |
| Prototype.RemoveAppended | teste.py:64-74 | appending a client and removing it again gives back the same clients, and the same list when it was new |
| Prototype.Account.constructor | teste.py:8-10 | a new account holds the wallet amount with score 100 |
| Prototype.Account.Deposit | teste.py:12-16 | the balance grows by the amount and the score by a tenth of it |
| Prototype.Account.Draw | teste.py:18-28 | it succeeds iff the balance covers the amount, then lowers balance (staying >= 0) and score by the amount and a tenth of it; a failure changes nothing |
| Prototype.Person.constructor | teste.py:31-34 | a new person has the name, the id and no accounts |
| Prototype.Person.AddAccount | teste.py:36-37 | a fresh account with the value and score 100 replaces any under that name |
| Prototype.Person.RemoveAccount | teste.py:39-40 | exactly that account is dropped |
| Prototype.Transaction.constructor | teste.py:43-54 | the id is the draw, in [0, 10000] and not checked for uniqueness |
| Prototype.Bank.constructor | teste.py:57-62 | a new bank has no clients, count 0 and vault 10000 |
| Prototype.Bank.OpenAccountAsWritten | teste.py:64-67 | the person is appended to the clients and then TypeError is raised: no account and no count |
| Prototype.Bank.OpenAccount | teste.py:64-67 | the person is appended, gets a fresh empty account under the bank's name, and is counted |
| Prototype.Bank.CloseAccount | teste.py:69-74 | the first occurrence of the person goes and the count drops by one; an absent person leaves the list and raises the count by one, putting count and length out of step by one |
| Prototype.DepositInto | teste.py:91-92 | the account is credited; the vault gains the value, or KeyError is raised when the bank is missing |
| Prototype.MoveFunds | teste.py:105-108 | a covered draw debits the origin; the transfer then stops at the first missing bank or account, crediting only what comes before it |
| Prototype.System.constructor | teste.py:79-81 | the system starts without banks or people |
| Prototype.System.CreateBank | teste.py:83-84 | a fresh bank without fee replaces any bank of that name |
| Prototype.System.CreatePerson | teste.py:86-87 | a fresh person without accounts replaces any with that id |
| Prototype.System.Deposit | teste.py:89-94 | KeyError escapes iff the account or the bank is missing; a found account is credited even when the bank is missing |
| Prototype.System.MakeTransaction | teste.py:97-112 | KeyError escapes, with nothing changed, iff a person is missing; otherwise every balance, score and vault is stated for each point at which the swallowed error can stop the transfer, also for one account or one bank |

## Left out

- The Tkinter interface, the popups, the forms and the `screen_*` windows
  of `SUB.py` and `interface.py`. Only the ledger effect of each form
  handler is modelled; a handler whose form does not parse is not
  reached.
- Pickle files. Saving yields the path it would write to. Loading takes
  the unpickled object as a parameter (`GuiLedger.System.LoadSys`).
- `datetime.now()`: the time of day is a parameter, and date and file
  stamps are opaque strings.
- `random.randint`: a stream of draws (`draws`) and, in `teste.py`, one
  draw (`IdDraw`). The id's range is a property of the draws.
- The clipboard copy of a new id (`SUB.py:378`).
- Parsing with `int()` and `float()`, and all printing and formatting.
  Floating point becomes exact `real`, so rounding is not modelled.
- `str.strip().capitalize()` on names. Names are opaque, so a bank's
  `name` always equals its key. A bank whose name had surrounding spaces
  would be stored under the unstripped key while its `name` is stripped
  (`SUB.py:297` with `SUB.py:390`, `system_main.py:142` with
  `system_main.py:209`); that case is not modelled.
- The console menu loop, the demo of `system_main.py` and the module
  script of `teste.py`. `open_account` raises TypeError at the script's
  first call (`teste.py:121`).
- Ledger.CloseAccounts: closes the keys the loop reaches in any order,
  not the dict's insertion order. The close_account at bank k changes
  only bank k and entry k of the client that bank has registered under
  the cpf. That client can be an older `Person` than the one being
  removed, once `create_person` has replaced the cpf (`SUB.py:417`,
  `system_main.py:230`): the model tracks every such client
  (`ClosingOwners`). No other close_account of the loop reads or writes
  bank k or entry k, so the order of the closes makes no difference.
- GuiLedger.System.RemovePerson and ConsoleLedger.System.RemovePerson:
  a missing bank stops the loop, so where it stops depends on the
  dict's key order. That order is the parameter `order`, with the
  requirement that it lists the person's account keys once each.
- ConsoleLedger.System.SysOpenAccount: requires the bank and the person
  to exist, because `sys_open_account` lets the KeyError escape.
  `GuiLedger.System.RemoveBank` requires the same for a non-empty name.
- GuiLedger.System.SysOpenAccount, GuiLedger.System.MakeDeposit,
  GuiLedger.System.MakeDraw and GuiLedger.System.MakeTransfer: require
  the chosen bank to exist once the person and account checks pass. A
  form is a non-modal window whose bank list is taken when it opens
  (`SUB.py:748-765`), so a bank removed after that (possible once a
  re-created bank of the same name counts 0 clients, `SUB.py:390`,
  `SUB.py:401-402`) makes the handler raise KeyError (`SUB.py:503`,
  `:529`, `:557`, `:596-597`) after its checks; that path is not
  modelled.
- GuiLedger.System.LoadSys: requires the unpickled snapshot to have its
  banks keyed by name and its people keyed by cpf, as every snapshot
  `__save_sys` writes has; a hand-made pickle file is not modelled.
- Prototype.Person.RemoveAccount and Ledger.Person.RemoveAccount:
  require the key, because `pop` raises and nothing catches it.

## Findings

| source | as written | input that shows it | evidently intended | confidence | as-written member | corrected member |
|---|---|---|---|---|---|---|
| teste.py:66 | `self.clients[person]` indexes the client list with a Person, so `open_account` raises TypeError after appending the client, before any account is added or counted | any bank and any person, as at teste.py:121 | `person.add_account(self.name, 0)`, as in the later versions, then count the client | high (not executed) | Prototype.Bank.OpenAccountAsWritten | Prototype.Bank.OpenAccount |
