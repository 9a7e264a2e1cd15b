/** The ledger of SUB.py, the GUI version: the Deposit, Draw and Transfer
    transactions, the SysData store and the ledger side of the System window
    (creation and removal rules, the handlers behind the deposit, draw and
    transfer forms, transaction ids, saving and the load check). Form fields
    arrive already parsed; the date stamps are opaque strings, the time of
    day a parameter, and random.randint a stream of draws. */
module GuiLedger {
  import opened Ledger
  import SubUtils

  /** Deposit and Draw turn a negative value into zero. */
  function Clamped(value: real): (v: real)
    ensures v >= 0.0
    ensures value >= 0.0 ==> v == value
    ensures value < 0.0 ==> v == 0.0
  {
    if value < 0.0 then 0.0 else value
  }

  // ---------------------------------------------------------------------
  // The load check of __load_sys

  /** path[-5:] in Python: the last five characters, or the whole of a
      shorter path. */
  function LastFive(path: string): (tail: string)
    ensures |tail| <= 5
    ensures |path| >= 5 ==> path == path[..|path| - 5] + tail
  {
    if |path| >= 5 then path[|path| - 5..] else path
  }

  /** The only files __load_sys opens. */
  predicate IsSaveFile(path: string) {
    LastFive(path) == SubUtils.SaveExtension
  }

  /** The check accepts exactly the paths that end in ".syss". */
  lemma IsSaveFileIsSuffix(path: string)
    ensures IsSaveFile(path) <==> exists stem :: path == stem + SubUtils.SaveExtension
  {
    if IsSaveFile(path) {
      assert path == path[..|path| - 5] + SubUtils.SaveExtension;
    }
    if exists stem :: path == stem + SubUtils.SaveExtension {
      var stem :| path == stem + SubUtils.SaveExtension;
      assert path[|path| - 5..] == SubUtils.SaveExtension;
    }
  }

  /** Every name __save_sys generates passes the load check. */
  lemma SaveNamePassesLoadCheck(stamp: string)
    ensures IsSaveFile(SubUtils.SaveName(stamp))
  {
  }

  // ---------------------------------------------------------------------
  // Transactions

  class Deposit {
    const value: real
    var id: int
    var date: string
    var succeeded: bool
    const depositor: Person
    const bank: Bank

    constructor (value: real, depositor: Person, targetBank: Bank)
      ensures this.value == Clamped(value)
      ensures this.depositor == depositor && bank == targetBank
      ensures id == 0 && date == "" && !succeeded
    {
      this.value := Clamped(value);
      this.depositor := depositor;
      bank := targetBank;
      id := 0;
      date := "";
      succeeded := false;
    }

    /** make: stamp the date and credit the value to the account and to the
        bank's vault; a deposit always succeeds. */
    method Make(now: string) returns (ok: bool)
      requires bank.name in depositor.accounts
      modifies this`date, this`succeeded, depositor.accounts[bank.name], bank`vault
      ensures ok && succeeded && date == now
      ensures var a := depositor.accounts[bank.name];
              a.balance == old(a.balance) + value && a.score == old(a.score) + value * DepositScoreRate
      ensures bank.vault == old(bank.vault) + value
    {
      date := now;
      var _ := depositor.accounts[bank.name].Deposit(value);
      bank.vault := bank.vault + value;
      succeeded := true;
      ok := succeeded;
    }
  }

  class Draw {
    const value: real
    var id: int
    var date: string
    var succeeded: bool
    const withdrawer: Person
    const bank: Bank
    const hasLimit: bool

    constructor (value: real, withdrawer: Person, originBank: Bank)
      requires originBank.name in withdrawer.accounts
      ensures this.value == Clamped(value)
      ensures this.withdrawer == withdrawer && bank == originBank
      ensures hasLimit == withdrawer.accounts[originBank.name].isLimited && !hasLimit
      ensures id == 0 && date == "" && !succeeded
    {
      this.value := Clamped(value);
      this.withdrawer := withdrawer;
      bank := originBank;
      hasLimit := withdrawer.accounts[originBank.name].isLimited;
      id := 0;
      date := "";
      succeeded := false;
    }

    /** make: withdraw from the account; only when that succeeds stamp the
        date and take the value out of the vault. */
    method Make(now: string, t: TimeOfDay) returns (ok: bool)
      requires bank.name in withdrawer.accounts
      modifies this`date, this`succeeded, withdrawer.accounts[bank.name], bank`vault
      ensures var a := withdrawer.accounts[bank.name];
              && succeeded == ok
              && (ok <==> DrawVerdict(old(a.balance), value, hasLimit, t) == Granted)
              && (ok ==> date == now && bank.vault == old(bank.vault) - value
                         && a.balance == old(a.balance) - value
                         && a.score == old(a.score) - value * DrawScoreRate)
              && (!ok ==> date == old(date) && bank.vault == old(bank.vault)
                          && a.balance == old(a.balance) && a.score == old(a.score))
    {
      succeeded := withdrawer.accounts[bank.name].Draw(value, hasLimit, t);
      if succeeded {
        date := now;
        bank.vault := bank.vault - value;
      }
      ok := succeeded;
    }
  }

  class Transfer {
    const value: real
    var id: int
    var date: string
    var succeeded: bool
    const withdrawer: Person
    const originBank: Bank
    const hasLimit: bool
    const receiver: Person
    const targetBank: Bank

    constructor (value: real, withdrawer: Person, originBank: Bank, depositor: Person, targetBank: Bank)
      requires originBank.name in withdrawer.accounts
      ensures this.value == value
      ensures this.withdrawer == withdrawer && this.originBank == originBank
      ensures receiver == depositor && this.targetBank == targetBank
      ensures hasLimit == withdrawer.accounts[originBank.name].isLimited && !hasLimit
      ensures id == 0 && date == "" && !succeeded
    {
      this.value := value;
      this.withdrawer := withdrawer;
      this.originBank := originBank;
      hasLimit := withdrawer.accounts[originBank.name].isLimited;
      receiver := depositor;
      this.targetBank := targetBank;
      id := 0;
      date := "";
      succeeded := false;
    }

    /** make: stamp the date, withdraw the taxed value from the source
        account and, only when that succeeds, move exactly the value from the
        origin vault to the target vault and credit it to the receiver. The
        ensures are written so that they also hold when source and
        destination are the same account or the same bank. */
    method Make(now: string, t: TimeOfDay) returns (ok: bool)
      requires originBank.name in withdrawer.accounts
      requires targetBank.name in receiver.accounts
      modifies this`date, this`succeeded
      modifies withdrawer.accounts[originBank.name], receiver.accounts[targetBank.name]
      modifies originBank`vault, targetBank`vault
      ensures date == now && succeeded == ok
      ensures var src := withdrawer.accounts[originBank.name];
              var dst := receiver.accounts[targetBank.name];
              var taxed := TaxedValue(value, originBank.fee, originBank != targetBank);
              var debit := if ok then taxed else 0.0;
              var credit := if ok then value else 0.0;
              && (ok <==> DrawVerdict(old(src.balance), taxed, hasLimit, t) == Granted)
              && src.balance == old(src.balance) - debit + (if src == dst then credit else 0.0)
              && dst.balance == old(dst.balance) + credit - (if src == dst then debit else 0.0)
              && src.score == old(src.score) - debit * DrawScoreRate
                                              + (if src == dst then credit * DepositScoreRate else 0.0)
              && dst.score == old(dst.score) + credit * DepositScoreRate
                                              - (if src == dst then debit * DrawScoreRate else 0.0)
              && originBank.vault == old(originBank.vault) - credit
                                     + (if originBank == targetBank then credit else 0.0)
              && targetBank.vault == old(targetBank.vault) + credit
                                     - (if originBank == targetBank then credit else 0.0)
    {
      date := now;
      var taxed := TaxedValue(value, originBank.fee, originBank != targetBank);
      succeeded := withdrawer.accounts[originBank.name].Draw(taxed, hasLimit, t);
      if succeeded {
        originBank.vault := originBank.vault - value;
        targetBank.vault := targetBank.vault + value;
        var _ := receiver.accounts[targetBank.name].Deposit(value);
      }
      ok := succeeded;
    }
  }

  /** What SysData.transactions maps an id to. */
  datatype TransactionRef = DepositRef(deposit: Deposit) | DrawRef(draw: Draw) | TransferRef(transfer: Transfer)

  // ---------------------------------------------------------------------
  // The store

  class SysData {
    var transactions: map<int, TransactionRef>
    var banks: map<string, Bank>
    var people: map<int, Person>

    constructor ()
      ensures transactions == map[] && banks == map[] && people == map[]
      ensures Valid()
    {
      transactions := map[];
      banks := map[];
      people := map[];
    }

    /** What every System operation keeps: a bank is stored under its name
        and a person under its cpf. */
    ghost predicate Valid()
      reads this
    {
      && (forall k :: k in banks ==> banks[k].name == k)
      && (forall c :: c in people ==> people[c].cpf == c)
    }
  }

  // ---------------------------------------------------------------------
  // The System window, ledger side

  class System {
    var data: SysData
    var hasSave: bool
    var saveName: string

    constructor ()
      ensures fresh(data) && data.Valid()
      ensures data.transactions == map[] && data.banks == map[] && data.people == map[]
      ensures !hasSave && saveName == ""
    {
      data := new SysData();
      hasSave := false;
      saveName := "";
    }

    /** The save bookkeeping a handler leaves behind: a save when it saved,
        no change otherwise. */
    twostate predicate SaveStep(saved: bool, stamp: string)
      reads this
    {
      if saved then hasSave && saveName == SubUtils.NextSaveName(old(hasSave), old(saveName), stamp)
      else hasSave == old(hasSave) && saveName == old(saveName)
    }

    /** __save_sys: name the save on the first call and return the path of
        the snapshot. */
    method SaveSys(stamp: string) returns (path: string)
      modifies this`hasSave, this`saveName
      ensures SaveStep(true, stamp)
      ensures path == SubUtils.SaveFolder + saveName
    {
      if !hasSave {
        saveName := SubUtils.SaveName(stamp);
        hasSave := true;
      }
      path := SubUtils.SaveFolder + saveName;
    }

    /** __load_sys: install the snapshot read from the path only when the
        path passes the extension check. The snapshot is one that
        __save_sys pickled, so its banks are keyed by their names. */
    method LoadSys(path: string, snapshot: SysData) returns (loaded: bool)
      requires snapshot.Valid()
      modifies this`data
      ensures loaded == IsSaveFile(path)
      ensures data == if loaded then snapshot else old(data)
      ensures old(data.Valid()) ==> data.Valid()
    {
      if LastFive(path) == SubUtils.SaveExtension {
        data := snapshot;
        loaded := true;
      } else {
        loaded := false;
      }
    }

    /** __generate_transaction_id: the first fresh draw becomes the id, under
        which the transaction is stored. */
    method GenerateTransactionId(t: TransactionRef, draws: seq<int>) returns (newId: int)
      requires IdDraws(draws) && HasFreshDraw(data.transactions.Keys, draws)
      modifies data`transactions
      ensures newId !in old(data.transactions) && 0 <= newId <= MaxTransactionId
      ensures exists k :: 0 <= k < |draws| && draws[k] == newId
                          && forall j :: 0 <= j < k ==> draws[j] in old(data.transactions)
      ensures data.transactions == old(data.transactions)[newId := t]
    {
      var tries;
      newId, tries := DrawFreshId(data.transactions.Keys, draws);
      data.transactions := data.transactions[newId := t];
    }

    predicate PersonExists(cpf: int)
      reads this, data
    {
      cpf in data.people
    }

    predicate PersonAndAccountExists(cpf: int, bank: string)
      reads this, data, data.people.Values
    {
      PersonExists(cpf) && bank in data.people[cpf].accounts
    }

    ghost function AccountAt(cpf: int, bank: string): set<Account>
      reads this, data, data.people.Values
    {
      if PersonAndAccountExists(cpf, bank) then {data.people[cpf].accounts[bank]} else {}
    }

    ghost function BankAt(bank: string): set<Bank>
      reads this, data
    {
      if bank in data.banks then {data.banks[bank]} else {}
    }

    /** __create_bank: an empty name changes nothing; otherwise a new bank
        with the fee given in percent is stored under the name, replacing any
        bank already there. */
    method CreateBank(name: string, feePercent: real, stamp: string)
      modifies data`banks, this`hasSave, this`saveName
      ensures name == "" ==> data.banks == old(data.banks)
      ensures name != "" ==>
                && name in data.banks && fresh(data.banks[name])
                && data.banks == old(data.banks)[name := data.banks[name]]
                && data.banks[name].name == name && data.banks[name].fee == feePercent / 100.0
                && data.banks[name].clients == map[] && data.banks[name].clientsAmount == 0
                && data.banks[name].vault == InitialVault
      ensures SaveStep(name != "", stamp)
      ensures old(data.Valid()) ==> data.Valid()
    {
      if name != "" {
        var bank := new Bank(name, feePercent / 100.0);
        data.banks := data.banks[name := bank];
        var _ := SaveSys(stamp);
      }
    }

    /** __remove_bank: the bank goes exactly when it counts no clients. */
    method RemoveBank(name: string, stamp: string)
      requires name == "" || name in data.banks
      modifies data`banks, this`hasSave, this`saveName
      ensures var removed := name != "" && old(data.banks[name].clientsAmount) == 0;
              && data.banks == (if removed then old(data.banks) - {name} else old(data.banks))
              && SaveStep(removed, stamp)
      ensures old(data.Valid()) ==> data.Valid()
    {
      if name == "" {
        return;
      }
      if data.banks[name].clientsAmount == 0 {
        data.banks := data.banks - {name};
        var _ := SaveSys(stamp);
      }
    }

    /** __create_person: a new person with no accounts is stored under the
        cpf, replacing any person already there. */
    method CreatePerson(name: string, cpf: int, stamp: string)
      modifies data`people, this`hasSave, this`saveName
      ensures cpf in data.people && fresh(data.people[cpf])
      ensures data.people == old(data.people)[cpf := data.people[cpf]]
      ensures data.people[cpf].name == name && data.people[cpf].cpf == cpf
      ensures data.people[cpf].accounts == map[]
      ensures SaveStep(true, stamp)
      ensures old(data.Valid()) ==> data.Valid()
    {
      var person := new Person(name, cpf);
      data.people := data.people[cpf := person];
      var _ := SaveSys(stamp);
    }

    /** __sys_open_account: with a bank chosen and the person present, the
        bank opens an account for the person. */
    method SysOpenAccount(bank: string, ownerId: int, stamp: string)
      requires bank != "" && PersonExists(ownerId) ==> bank in data.banks
      modifies (if bank != "" && PersonExists(ownerId) then {data.people[ownerId]} else {})
      modifies BankAt(bank)`clients, BankAt(bank)`clientsAmount
      modifies this`hasSave, this`saveName
      ensures var acts := bank != "" && PersonExists(ownerId);
              && SaveStep(acts, stamp)
              && (!acts ==> unchanged(BankAt(bank)))
              && (acts ==>
                    var b := old(data.banks[bank]);
                    var p := data.people[ownerId];
                    && b.clients == old(b.clients)[p.cpf := p]
                    && b.clientsAmount == old(b.clientsAmount) + 1
                    && b.name in p.accounts && fresh(p.accounts[b.name])
                    && p.accounts[b.name].balance == 0.0
                    && p.accounts[b.name].score == InitialScore
                    && p.accounts == old(p.accounts)[b.name := p.accounts[b.name]])
    {
      if bank == "" || !PersonExists(ownerId) {
        return;
      }
      data.banks[bank].OpenAccount(data.people[ownerId]);
      var _ := SaveSys(stamp);
    }

    /** The person named on the removal form is the one stored under the
        cpf. */
    predicate Matches(name: string, cpf: int)
      reads this, data
    {
      PersonExists(cpf) && data.people[cpf].name == name
    }

    /** The keys whose bank __remove_person closes an account at, once the
        name matched: those of the order the for loop gets through before a
        key names no bank. */
    function ClosedKeys(name: string, cpf: int, order: seq<string>): (keys: set<string>)
      reads this, data
      ensures keys <= data.banks.Keys
    {
      if Matches(name, cpf) then Prefix(order, Reached(order, data.banks.Keys)) else {}
    }

    /** The banks stored under those keys. */
    ghost function ClosingBanks(name: string, cpf: int, order: seq<string>): set<Bank>
      reads this, data
    {
      BanksAt(data.banks, ClosedKeys(name, cpf, order))
    }

    /** The people those banks have registered under the cpf: the objects
        close_account may drop an account from. */
    ghost function ClosingOwners(name: string, cpf: int, order: seq<string>): set<Person>
      reads this, data, data.banks.Values
    {
      set b | b in ClosingBanks(name, cpf, order) && cpf in b.clients :: b.clients[cpf]
    }

    /** The close_account calls that take the success path, with the client
        each finds. */
    ghost function HeldBy(name: string, cpf: int, order: seq<string>): map<string, Person>
      reads this, data, data.banks.Values
      reads set b, p | b in data.banks.Values && p in b.clients.Values :: p
    {
      HeldAmong(data.banks, ClosedKeys(name, cpf, order), cpf)
    }

    /** A person registered at the bank of every one of its accounts loses
        all of them to __remove_person: the loop reaches the end of the
        order, closes every key of the account map, and every close_account
        finds the person itself. */
    lemma RegisteredPersonClosesAll(name: string, cpf: int, order: seq<string>)
      requires data.Valid() && Matches(name, cpf)
      requires Listed(order, data.people[cpf].accounts.Keys)
      requires RegisteredEverywhere(data.banks, data.people[cpf])
      ensures Reached(order, data.banks.Keys) == |order|
      ensures ClosedKeys(name, cpf, order) == data.people[cpf].accounts.Keys
      ensures DroppedFrom(HeldBy(name, cpf, order), data.people[cpf]) == data.people[cpf].accounts.Keys
      ensures data.people[cpf].accounts != map[] ==> data.people[cpf] in ClosingOwners(name, cpf, order)
    {
      var person := data.people[cpf];
      ClosesEverything(data.banks, order, person);
      if person.accounts != map[] {
        var acc :| acc in person.accounts;
        assert data.banks[acc] in ClosingBanks(name, cpf, order);
      }
    }

    /** The for loop of __remove_person once the name matched: close the
        person's account at the bank of each key in the order given, until a
        key names no bank. */
    method CloseInOrder(name: string, cpf: int, order: seq<string>)
      requires data.Valid() && Matches(name, cpf)
      modifies ClosingBanks(name, cpf, order)`clients, ClosingBanks(name, cpf, order)`clientsAmount
      modifies ClosingOwners(name, cpf, order)
      ensures forall acc | acc in old(ClosedKeys(name, cpf, order)) ::
                data.banks[acc].clients ==
                  if acc in old(HeldBy(name, cpf, order)) then old(data.banks[acc].clients) - {cpf}
                  else old(data.banks[acc].clients)
      ensures forall acc | acc in old(ClosedKeys(name, cpf, order)) ::
                data.banks[acc].clientsAmount ==
                  old(data.banks[acc].clientsAmount) + (if acc in old(HeldBy(name, cpf, order)) then -1 else 1)
      ensures forall q | q in old(ClosingOwners(name, cpf, order)) ::
                q.accounts == old(q.accounts) - DroppedFrom(old(HeldBy(name, cpf, order)), q)
      ensures old(Listed(order, data.people[cpf].accounts.Keys) && RegisteredEverywhere(data.banks, data.people[cpf])) ==>
                old(Reached(order, data.banks.Keys)) == |order| && old(data.people[cpf]).accounts == map[]
    {
      var person := data.people[cpf];
      ghost var everywhere := Listed(order, person.accounts.Keys) && RegisteredEverywhere(data.banks, person);
      ghost var accounts := person.accounts;
      ghost var dropped := DroppedFrom(HeldBy(name, cpf, order), person);
      ghost var owners := ClosingOwners(name, cpf, order);
      if everywhere {
        RegisteredPersonClosesAll(name, cpf, order);
      }
      var keys := Prefix(order, Reached(order, data.banks.Keys));
      assert keys == ClosedKeys(name, cpf, order);
      CloseAccounts(data.banks, keys, person, HeldBy(name, cpf, order), ClosingOwners(name, cpf, order));
      if everywhere {
        EmptiedBy(person, accounts, dropped, owners);
      }
    }

    /** The ledger side of __remove_person once the name matched: the for
        loop, then, only when every key was reached, drop the person; every
        account of the person was closed by then. */
    method ClosePerson(name: string, cpf: int, order: seq<string>) returns (finished: bool)
      requires data.Valid() && Matches(name, cpf)
      modifies data`people
      modifies ClosingBanks(name, cpf, order)`clients, ClosingBanks(name, cpf, order)`clientsAmount
      modifies ClosingOwners(name, cpf, order)
      ensures data.Valid() && data.banks == old(data.banks)
      ensures finished == old(Reached(order, data.banks.Keys) == |order|)
      ensures data.people == if finished then old(data.people) - {cpf} else old(data.people)
      ensures finished ==> old(ClosedKeys(name, cpf, order)) == Prefix(order, |order|)
      ensures forall acc | acc in old(ClosedKeys(name, cpf, order)) ::
                data.banks[acc].clients ==
                  if acc in old(HeldBy(name, cpf, order)) then old(data.banks[acc].clients) - {cpf}
                  else old(data.banks[acc].clients)
      ensures forall acc | acc in old(ClosedKeys(name, cpf, order)) ::
                data.banks[acc].clientsAmount ==
                  old(data.banks[acc].clientsAmount) + (if acc in old(HeldBy(name, cpf, order)) then -1 else 1)
      ensures forall q | q in old(ClosingOwners(name, cpf, order)) ::
                q.accounts == old(q.accounts) - DroppedFrom(old(HeldBy(name, cpf, order)), q)
      ensures old(Listed(order, data.people[cpf].accounts.Keys) && RegisteredEverywhere(data.banks, data.people[cpf])) ==>
                finished && old(data.people[cpf]).accounts == map[]
    {
      CloseInOrder(name, cpf, order);
      finished := Reached(order, data.banks.Keys) == |order|;
      if finished {
        data.people := data.people - {cpf};
      }
    }

    /** __remove_person: when the cpf is stored under that name, close the
        person's account at the bank of each key in the order given; the
        person is dropped and the system saved only when every key named a
        bank, and then every account of the person was closed. A key that
        names no bank raises KeyError out of the handler: the accounts
        closed so far stay closed, the person stays and nothing is saved. A
        close_account that finds no account counts one client more, as in
        Bank.CloseAccount. A name that does not match changes nothing. */
    method RemovePerson(name: string, cpf: int, order: seq<string>, stamp: string)
      requires data.Valid()
      requires Matches(name, cpf) ==> Listed(order, data.people[cpf].accounts.Keys)
      modifies data`people, this`hasSave, this`saveName
      modifies ClosingBanks(name, cpf, order)`clients, ClosingBanks(name, cpf, order)`clientsAmount
      modifies ClosingOwners(name, cpf, order)
      ensures data.Valid() && data.banks == old(data.banks)
      ensures var finished := old(Matches(name, cpf) && Reached(order, data.banks.Keys) == |order|);
              && SaveStep(finished, stamp)
              && data.people == (if finished then old(data.people) - {cpf} else old(data.people))
              && (finished ==> old(ClosedKeys(name, cpf, order)) == old(data.people[cpf].accounts.Keys))
      ensures forall acc | acc in old(ClosedKeys(name, cpf, order)) ::
                data.banks[acc].clients ==
                  if acc in old(HeldBy(name, cpf, order)) then old(data.banks[acc].clients) - {cpf}
                  else old(data.banks[acc].clients)
      ensures forall acc | acc in old(ClosedKeys(name, cpf, order)) ::
                data.banks[acc].clientsAmount ==
                  old(data.banks[acc].clientsAmount) + (if acc in old(HeldBy(name, cpf, order)) then -1 else 1)
      ensures forall q | q in old(ClosingOwners(name, cpf, order)) ::
                q.accounts == old(q.accounts) - DroppedFrom(old(HeldBy(name, cpf, order)), q)
      ensures old(Matches(name, cpf) && RegisteredEverywhere(data.banks, data.people[cpf])) ==>
                data.people == old(data.people) - {cpf} && old(data.people[cpf]).accounts == map[]
    {
      if !Matches(name, cpf) {
        return;
      }
      PrefixOfListed(order, data.people[cpf].accounts.Keys);
      var finished := ClosePerson(name, cpf, order);
      if finished {
        var _ := SaveSys(stamp);
      }
    }

    /** __make_deposit: with a bank chosen and the account present, make a
        deposit of the (clamped) value, store it under a fresh id and save;
        otherwise change nothing. */
    method MakeDeposit(cpf: int, bank: string, value: real, now: string, draws: seq<int>, stamp: string)
      returns (dpt: Deposit?)
      requires data.Valid()
      requires IdDraws(draws) && HasFreshDraw(data.transactions.Keys, draws)
      requires bank != "" && PersonAndAccountExists(cpf, bank) ==> bank in data.banks
      modifies data`transactions, AccountAt(cpf, bank), BankAt(bank)`vault, this`hasSave, this`saveName
      ensures var made := bank != "" && old(PersonAndAccountExists(cpf, bank));
              && SaveStep(made, stamp)
              && (!made ==> dpt == null && data.transactions == old(data.transactions)
                            && unchanged(BankAt(bank)) && unchanged(AccountAt(cpf, bank)))
              && (made ==>
                    var a := old(data.people[cpf].accounts[bank]);
                    var b := old(data.banks[bank]);
                    && dpt != null && fresh(dpt)
                    && dpt.depositor == old(data.people[cpf]) && dpt.bank == b
                    && dpt.value == Clamped(value) && dpt.succeeded && dpt.date == now
                    && dpt.id !in old(data.transactions) && 0 <= dpt.id <= MaxTransactionId
                    && data.transactions == old(data.transactions)[dpt.id := DepositRef(dpt)]
                    && a.balance == old(a.balance) + dpt.value
                    && a.score == old(a.score) + dpt.value * DepositScoreRate
                    && b.vault == old(b.vault) + dpt.value)
    {
      dpt := null;
      if bank == "" || !PersonAndAccountExists(cpf, bank) {
        return;
      }
      dpt := new Deposit(value, data.people[cpf], data.banks[bank]);
      var _ := dpt.Make(now);
      dpt.id := GenerateTransactionId(DepositRef(dpt), draws);
      var _ := SaveSys(stamp);
    }

    /** __make_draw: with the account present, make a withdrawal of the
        (clamped) value; only a successful one is stored under a fresh id and
        saved. */
    method MakeDraw(cpf: int, bank: string, value: real, now: string, t: TimeOfDay, draws: seq<int>, stamp: string)
      returns (drw: Draw?)
      requires data.Valid()
      requires IdDraws(draws) && HasFreshDraw(data.transactions.Keys, draws)
      requires PersonAndAccountExists(cpf, bank) ==> bank in data.banks
      modifies data`transactions, AccountAt(cpf, bank), BankAt(bank)`vault, this`hasSave, this`saveName
      ensures var made := old(PersonAndAccountExists(cpf, bank));
              && (!made ==> drw == null && data.transactions == old(data.transactions) && SaveStep(false, stamp)
                            && unchanged(BankAt(bank)) && unchanged(AccountAt(cpf, bank)))
              && (made ==>
                    var a := old(data.people[cpf].accounts[bank]);
                    var b := old(data.banks[bank]);
                    && drw != null && fresh(drw)
                    && drw.withdrawer == old(data.people[cpf]) && drw.bank == b
                    && drw.value == Clamped(value) && !drw.hasLimit
                    && (drw.succeeded <==> DrawVerdict(old(a.balance), drw.value, false, t) == Granted)
                    && SaveStep(drw.succeeded, stamp)
                    && (drw.succeeded ==>
                          && drw.date == now
                          && drw.id !in old(data.transactions) && 0 <= drw.id <= MaxTransactionId
                          && data.transactions == old(data.transactions)[drw.id := DrawRef(drw)]
                          && a.balance == old(a.balance) - drw.value
                          && a.score == old(a.score) - drw.value * DrawScoreRate
                          && b.vault == old(b.vault) - drw.value)
                    && (!drw.succeeded ==>
                          && drw.date == "" && drw.id == 0
                          && data.transactions == old(data.transactions)
                          && a.balance == old(a.balance) && a.score == old(a.score)
                          && b.vault == old(b.vault)))
    {
      drw := null;
      if !PersonAndAccountExists(cpf, bank) {
        return;
      }
      drw := new Draw(value, data.people[cpf], data.banks[bank]);
      var ok := drw.Make(now, t);
      if ok {
        drw.id := GenerateTransactionId(DrawRef(drw), draws);
        var _ := SaveSys(stamp);
      }
    }

    /** __make_transfer: with both banks chosen and both accounts present,
        make the transfer; only a successful one is stored under a fresh id
        and saved. The transfer is returned either way. */
    method MakeTransfer(originBank: string, targetBank: string, value: real, originId: int, targetId: int,
                        now: string, t: TimeOfDay, draws: seq<int>, stamp: string)
      returns (trf: Transfer?)
      requires data.Valid()
      requires IdDraws(draws) && HasFreshDraw(data.transactions.Keys, draws)
      requires originBank != "" && targetBank != ""
               && PersonAndAccountExists(originId, originBank) && PersonAndAccountExists(targetId, targetBank)
               ==> originBank in data.banks && targetBank in data.banks
      modifies data`transactions, AccountAt(originId, originBank), AccountAt(targetId, targetBank)
      modifies BankAt(originBank)`vault, BankAt(targetBank)`vault, this`hasSave, this`saveName
      ensures var made := originBank != "" && targetBank != ""
                          && old(PersonAndAccountExists(originId, originBank))
                          && old(PersonAndAccountExists(targetId, targetBank));
              && (!made ==> trf == null && data.transactions == old(data.transactions) && SaveStep(false, stamp)
                            && unchanged(BankAt(originBank)) && unchanged(BankAt(targetBank))
                            && unchanged(AccountAt(originId, originBank)) && unchanged(AccountAt(targetId, targetBank)))
              && (made ==>
                    var src := old(data.people[originId].accounts[originBank]);
                    var dst := old(data.people[targetId].accounts[targetBank]);
                    var ob := old(data.banks[originBank]);
                    var tb := old(data.banks[targetBank]);
                    var taxed := TaxedValue(value, ob.fee, originBank != targetBank);
                    && trf != null && fresh(trf)
                    && trf.value == value && trf.date == now && !trf.hasLimit
                    && trf.originBank == ob && trf.targetBank == tb
                    && (trf.succeeded <==> DrawVerdict(old(src.balance), taxed, false, t) == Granted)
                    && SaveStep(trf.succeeded, stamp)
                    && (trf.succeeded ==>
                          && trf.id !in old(data.transactions) && 0 <= trf.id <= MaxTransactionId
                          && data.transactions == old(data.transactions)[trf.id := TransferRef(trf)]
                          && src.balance == old(src.balance) - taxed + (if src == dst then value else 0.0)
                          && dst.balance == old(dst.balance) + value - (if src == dst then taxed else 0.0)
                          && src.score == old(src.score) - taxed * DrawScoreRate
                                                        + (if src == dst then value * DepositScoreRate else 0.0)
                          && dst.score == old(dst.score) + value * DepositScoreRate
                                                        - (if src == dst then taxed * DrawScoreRate else 0.0)
                          && ob.vault == old(ob.vault) - (if originBank == targetBank then 0.0 else value)
                          && tb.vault == old(tb.vault) + (if originBank == targetBank then 0.0 else value))
                    && (!trf.succeeded ==>
                          && trf.id == 0 && data.transactions == old(data.transactions)
                          && src.balance == old(src.balance) && dst.balance == old(dst.balance)
                          && src.score == old(src.score) && dst.score == old(dst.score)
                          && ob.vault == old(ob.vault) && tb.vault == old(tb.vault)))
    {
      trf := null;
      if originBank == "" || targetBank == "" {
        return;
      }
      if !PersonAndAccountExists(originId, originBank) || !PersonAndAccountExists(targetId, targetBank) {
        return;
      }
      assert data.banks[originBank] == data.banks[targetBank] <==> originBank == targetBank by {
        assert data.banks[originBank].name == originBank && data.banks[targetBank].name == targetBank;
      }
      trf := new Transfer(value, data.people[originId], data.banks[originBank],
                          data.people[targetId], data.banks[targetBank]);
      var ok := trf.Make(now, t);
      if ok {
        trf.id := GenerateTransactionId(TransferRef(trf), draws);
        var _ := SaveSys(stamp);
      }
    }
  }
}
