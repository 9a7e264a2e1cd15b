/** The ledger of system_main.py, the console version: the same Account,
    Person and Bank as SUB.py, a plain Transaction record, and a System
    whose methods catch their own KeyErrors. Its transfer stores the
    transaction under a fresh id before trying it, and nets the origin
    vault in two steps. */
module ConsoleLedger {
  import opened Ledger

  /** A transfer record: who pays from which bank, who receives at which
      bank, and what became of it. */
  class Transaction {
    const value: real
    var id: int
    var succeeded: bool
    const originPerson: int
    const originBank: string
    const targetPerson: int
    const targetBank: string
    var date: string

    constructor (value: real, originId: int, originBank: string, targetId: int, targetBank: string)
      ensures this.value == value
      ensures originPerson == originId && this.originBank == originBank
      ensures targetPerson == targetId && this.targetBank == targetBank
      ensures id == 0 && !succeeded && date == ""
    {
      this.value := value;
      id := 0;
      succeeded := false;
      originPerson := originId;
      this.originBank := originBank;
      targetPerson := targetId;
      this.targetBank := targetBank;
      date := "";
    }
  }

  // ---------------------------------------------------------------------
  // The money movements behind sys_deposit, sys_draw and make_transfer,
  // once their dictionary lookups are done. A bank whose lookup raised
  // KeyError is null.

  /** The bank, as a set of at most one element. */
  function Present(b: Bank?): set<Bank> {
    if b == null then {} else {b}
  }

  /** sys_deposit after finding the account: deposit into it, then add the
      value to the vault of the bank when the bank was found. */
  method DepositInto(a: Account, b: Bank?, value: real) returns (total: real)
    modifies a, Present(b)`vault
    ensures a.balance == old(a.balance) + value && a.score == old(a.score) + value * DepositScoreRate
    ensures total == a.balance
    ensures b != null ==> b.vault == old(b.vault) + value
  {
    total := a.Deposit(value);
    if b != null {
      b.vault := b.vault + value;
    }
  }

  /** sys_draw after finding the account: try the withdrawal and, when it is
      granted, take the value from the vault of the bank and return it. A
      granted withdrawal whose bank was not found still leaves the account
      debited, and returns 0. */
  method DrawFrom(a: Account, b: Bank?, value: real, hasTimeLimit: bool, t: TimeOfDay) returns (drawn: real)
    modifies a, Present(b)`vault
    ensures var granted := DrawVerdict(old(a.balance), value, hasTimeLimit, t) == Granted;
            && drawn == (if granted && b != null then value else 0.0)
            && a.balance == old(a.balance) - (if granted then value else 0.0)
            && a.score == old(a.score) - (if granted then value * DrawScoreRate else 0.0)
            && (b != null ==> b.vault == old(b.vault) - (if granted then value else 0.0))
  {
    drawn := 0.0;
    var done := a.Draw(value, hasTimeLimit, t);
    if done && b != null {
      b.vault := b.vault - value;
      drawn := value;
    }
  }

  /** The try block of make_transfer once both people are found: withdraw
      the taxed value from the source account (sys_draw) and, on a non-zero
      result, mark the transaction succeeded, credit the origin vault with taxed - value and deposit the
      value into the target account when there is one (sys_deposit). The
      ensures also hold when source and target are the same account or the
      same bank. */
  method MoveFunds(tx: Transaction, src: Account, ob: Bank?, dst: Account?, tb: Bank?, value: real, taxed: real,
                   isTimeLimited: bool, t: TimeOfDay) returns (ok: bool)
    modifies tx`succeeded, src, Present(ob)`vault, if dst == null then {} else {dst}, Present(tb)`vault
    ensures tx.succeeded == (old(tx.succeeded) || ok)
    ensures var granted := DrawVerdict(old(src.balance), taxed, isTimeLimited, t) == Granted;
            var debit := if granted then taxed else 0.0;
            var credit := if ok && dst != null then value else 0.0;
            && (ok <==> granted && ob != null && taxed != 0.0)
            && src.balance == old(src.balance) - debit + (if src == dst then credit else 0.0)
            && src.score == old(src.score) - debit * DrawScoreRate
                                           + (if src == dst then credit * DepositScoreRate else 0.0)
            && (dst != null ==>
                  && dst.balance == old(dst.balance) + credit - (if src == dst then debit else 0.0)
                  && dst.score == old(dst.score) + credit * DepositScoreRate
                                                 - (if src == dst then debit * DrawScoreRate else 0.0))
            && (ob != null ==>
                  ob.vault == old(ob.vault) - (if ok then value else 0.0)
                                            + (if ob == tb && tb != null then credit else 0.0))
            && (tb != null ==>
                  tb.vault == old(tb.vault) + credit - (if ob == tb && ok then value else 0.0))
  {
    ok := false;
    var drawn := DrawFrom(src, ob, taxed, isTimeLimited, t);
    if drawn != 0.0 {
      ok := true;
      tx.succeeded := true;
      ob.vault := ob.vault + (taxed - value);
      if dst != null {
        var _ := DepositInto(dst, tb, value);
      }
    }
  }

  // ---------------------------------------------------------------------
  // The system

  class System {
    var transactions: map<int, Transaction>
    var banks: map<string, Bank>
    var people: map<int, Person>

    constructor ()
      ensures transactions == map[] && banks == map[] && people == map[]
    {
      transactions := map[];
      banks := map[];
      people := map[];
    }

    /** Every bank is stored under its name and every person under its cpf,
        as create_bank and create_person store them. */
    ghost predicate Valid()
      reads this
    {
      && (forall k :: k in banks ==> banks[k].name == k)
      && (forall c :: c in people ==> people[c].cpf == c)
    }

    predicate HasAccount(cpf: int, bank: string)
      reads this`people, people.Values
    {
      cpf in people && bank in people[cpf].accounts
    }

    ghost function AccountAt(cpf: int, bank: string): set<Account>
      reads this, people.Values
    {
      if HasAccount(cpf, bank) then {people[cpf].accounts[bank]} else {}
    }

    ghost function BankAt(bank: string): set<Bank>
      reads this
    {
      if bank in banks then {banks[bank]} else {}
    }

    /** create_bank: a new bank with the fee as given is stored under the
        name, replacing any bank already there. */
    method CreateBank(name: string, bankFee: real)
      modifies this`banks
      ensures name in banks && fresh(banks[name])
      ensures banks == old(banks)[name := banks[name]]
      ensures banks[name].name == name && banks[name].fee == bankFee
      ensures banks[name].clients == map[] && banks[name].clientsAmount == 0
      ensures banks[name].vault == InitialVault
      ensures old(Valid()) ==> Valid()
    {
      var bank := new Bank(name, bankFee);
      banks := banks[name := bank];
    }

    /** remove_bank: the bank goes exactly when it is present and counts no
        clients; an absent name changes nothing. */
    method RemoveBank(name: string)
      modifies this`banks
      ensures banks == if name in old(banks) && old(banks[name].clientsAmount) == 0
                       then old(banks) - {name} else old(banks)
      ensures old(Valid()) ==> Valid()
    {
      if name in banks && banks[name].clientsAmount == 0 {
        banks := banks - {name};
      }
    }

    /** create_person: a new person with no accounts is stored under the
        cpf, replacing any person already there. */
    method CreatePerson(name: string, cpf: int)
      modifies this`people
      ensures cpf in people && fresh(people[cpf])
      ensures people == old(people)[cpf := people[cpf]]
      ensures people[cpf].name == name && people[cpf].cpf == cpf && people[cpf].accounts == map[]
      ensures old(Valid()) ==> Valid()
    {
      var person := new Person(name, cpf);
      people := people[cpf := person];
    }

    /** The keys whose bank remove_person closes an account at. */
    function ClosedKeys(cpf: int, order: seq<string>): (keys: set<string>)
      reads this
      ensures keys <= banks.Keys
    {
      if cpf in people then Prefix(order, Reached(order, banks.Keys)) else {}
    }

    /** The banks stored under those keys. */
    ghost function ClosingBanks(cpf: int, order: seq<string>): set<Bank>
      reads this
    {
      BanksAt(banks, ClosedKeys(cpf, order))
    }

    /** The people those banks have registered under the cpf: the objects
        close_account may drop an account from. */
    ghost function ClosingOwners(cpf: int, order: seq<string>): set<Person>
      reads this, banks.Values
    {
      set b | b in ClosingBanks(cpf, order) && cpf in b.clients :: b.clients[cpf]
    }

    /** For each closed key whose bank still holds an account for the client
        registered under the cpf, that client: the close_account calls that
        take the success path. */
    ghost function HeldAt(cpf: int, order: seq<string>): map<string, Person>
      reads this, banks.Values
      reads set b, p | b in banks.Values && p in b.clients.Values :: p
    {
      HeldAmong(banks, ClosedKeys(cpf, order), cpf)
    }

    /** A person registered at the bank of every one of its accounts loses
        all of them to remove_person: the loop reaches the end of the order,
        closes every key of the account map, and every close_account finds
        the person itself. */
    lemma RegisteredPersonClosesAll(cpf: int, order: seq<string>)
      requires Valid() && cpf in people
      requires Listed(order, people[cpf].accounts.Keys)
      requires RegisteredEverywhere(banks, people[cpf])
      ensures Reached(order, banks.Keys) == |order|
      ensures ClosedKeys(cpf, order) == people[cpf].accounts.Keys
      ensures DroppedFrom(HeldAt(cpf, order), people[cpf]) == people[cpf].accounts.Keys
      ensures people[cpf].accounts != map[] ==> people[cpf] in ClosingOwners(cpf, order)
    {
      var person := people[cpf];
      ClosesEverything(banks, order, person);
      if person.accounts != map[] {
        var acc :| acc in person.accounts;
        assert banks[acc] in ClosingBanks(cpf, order);
      }
    }

    /** The for loop of remove_person for a present cpf: close the person's
        account at the bank of each key in the order given, until a key
        names no bank. */
    method CloseInOrder(cpf: int, order: seq<string>)
      requires Valid() && cpf in people
      modifies ClosingBanks(cpf, order)`clients, ClosingBanks(cpf, order)`clientsAmount
      modifies ClosingOwners(cpf, order)
      ensures forall acc | acc in old(ClosedKeys(cpf, order)) ::
                banks[acc].clients ==
                  if acc in old(HeldAt(cpf, order)) then old(banks[acc].clients) - {cpf}
                  else old(banks[acc].clients)
      ensures forall acc | acc in old(ClosedKeys(cpf, order)) ::
                banks[acc].clientsAmount ==
                  old(banks[acc].clientsAmount) + (if acc in old(HeldAt(cpf, order)) then -1 else 1)
      ensures forall q | q in old(ClosingOwners(cpf, order)) ::
                q.accounts == old(q.accounts) - DroppedFrom(old(HeldAt(cpf, order)), q)
      ensures old(Listed(order, people[cpf].accounts.Keys) && RegisteredEverywhere(banks, people[cpf])) ==>
                old(Reached(order, banks.Keys)) == |order| && old(people[cpf]).accounts == map[]
    {
      var person := people[cpf];
      ghost var everywhere := Listed(order, person.accounts.Keys) && RegisteredEverywhere(banks, person);
      ghost var accounts := person.accounts;
      ghost var dropped := DroppedFrom(HeldAt(cpf, order), person);
      ghost var owners := ClosingOwners(cpf, order);
      if everywhere {
        RegisteredPersonClosesAll(cpf, order);
      }
      var keys := Prefix(order, Reached(order, banks.Keys));
      assert keys == ClosedKeys(cpf, order);
      CloseAccounts(banks, keys, person, HeldAt(cpf, order), ClosingOwners(cpf, order));
      if everywhere {
        EmptiedBy(person, accounts, dropped, owners);
      }
    }

    /** remove_person: an absent cpf changes nothing. Otherwise close the
        person's account at the bank of each key in the order given, until
        a key names no bank; the person is dropped only when every key was
        reached, and then every account of the person was closed. A
        close_account that finds no account counts one client more, as in
        Bank.CloseAccount. */
    method RemovePerson(cpf: int, order: seq<string>)
      requires Valid()
      requires cpf in people ==> Listed(order, people[cpf].accounts.Keys)
      modifies this`people
      modifies ClosingBanks(cpf, order)`clients, ClosingBanks(cpf, order)`clientsAmount
      modifies ClosingOwners(cpf, order)
      ensures Valid() && banks == old(banks)
      ensures var finished := old(cpf in people && Reached(order, banks.Keys) == |order|);
              && people == (if finished then old(people) - {cpf} else old(people))
              && (finished ==> old(ClosedKeys(cpf, order)) == old(people[cpf].accounts.Keys))
      ensures forall acc | acc in old(ClosedKeys(cpf, order)) ::
                banks[acc].clients ==
                  if acc in old(HeldAt(cpf, order)) then old(banks[acc].clients) - {cpf}
                  else old(banks[acc].clients)
      ensures forall acc | acc in old(ClosedKeys(cpf, order)) ::
                banks[acc].clientsAmount ==
                  old(banks[acc].clientsAmount) + (if acc in old(HeldAt(cpf, order)) then -1 else 1)
      ensures forall q | q in old(ClosingOwners(cpf, order)) ::
                q.accounts == old(q.accounts) - DroppedFrom(old(HeldAt(cpf, order)), q)
      ensures old(cpf in people && RegisteredEverywhere(banks, people[cpf])) ==>
                people == old(people) - {cpf} && old(people[cpf]).accounts == map[]
    {
      if cpf !in people {
        return;
      }
      ghost var accounts := people[cpf].accounts.Keys;
      if Reached(order, banks.Keys) == |order| {
        PrefixOfListed(order, accounts);
      }
      CloseInOrder(cpf, order);
      if Reached(order, banks.Keys) == |order| {
        people := people - {cpf};
      }
    }

    /** sys_open_account: the bank opens an account for the person. Both keys
        must be present: the lookups are not guarded. */
    method SysOpenAccount(ownerId: int, bank: string)
      requires bank in banks && ownerId in people
      modifies BankAt(bank)`clients, BankAt(bank)`clientsAmount, people[ownerId]
      ensures var b := old(banks[bank]);
              var p := old(people[ownerId]);
              && b.clients == old(b.clients)[p.cpf := p]
              && b.clientsAmount == old(b.clientsAmount) + 1
              && b.name in p.accounts && fresh(p.accounts[b.name])
              && p.accounts[b.name].balance == 0.0 && p.accounts[b.name].score == InitialScore
              && p.accounts == old(p.accounts)[b.name := p.accounts[b.name]]
    {
      banks[bank].OpenAccount(people[ownerId]);
    }

    /** sys_deposit: with the account present, deposit into it and return
        its new balance, and add the value to the bank's vault when the bank
        is present; a missing person or account returns 0 and changes
        nothing. */
    method SysDeposit(cpf: int, bank: string, value: real) returns (total: real)
      modifies AccountAt(cpf, bank), BankAt(bank)`vault
      ensures !old(HasAccount(cpf, bank)) ==> total == 0.0
      ensures old(HasAccount(cpf, bank)) ==>
                var a := old(people[cpf].accounts[bank]);
                && a.balance == old(a.balance) + value
                && a.score == old(a.score) + value * DepositScoreRate
                && total == a.balance
      ensures bank in old(banks) ==>
                old(banks[bank]).vault == old(banks[bank].vault) + (if old(HasAccount(cpf, bank)) then value else 0.0)
    {
      total := 0.0;
      if !HasAccount(cpf, bank) {
        return;
      }
      total := DepositInto(people[cpf].accounts[bank], if bank in banks then banks[bank] else null, value);
    }

    /** sys_draw: with the account present, try the withdrawal; when it is
        granted, take the value from the vault of a present bank and return
        it. Anything else returns 0, and a refused or impossible withdrawal
        changes nothing. */
    method SysDraw(cpf: int, bank: string, value: real, hasTimeLimit: bool, t: TimeOfDay)
      returns (drawn: real)
      modifies AccountAt(cpf, bank), BankAt(bank)`vault
      ensures var granted := old(HasAccount(cpf, bank))
                             && DrawVerdict(old(people[cpf].accounts[bank].balance), value, hasTimeLimit, t) == Granted;
              && drawn == (if granted && bank in old(banks) then value else 0.0)
              && (old(HasAccount(cpf, bank)) ==>
                    var a := old(people[cpf].accounts[bank]);
                    && a.balance == old(a.balance) - (if granted then value else 0.0)
                    && a.score == old(a.score) - (if granted then value * DrawScoreRate else 0.0))
              && (bank in old(banks) ==>
                    old(banks[bank]).vault == old(banks[bank].vault) - (if granted then value else 0.0))
    {
      drawn := 0.0;
      if !HasAccount(cpf, bank) {
        return;
      }
      drawn := DrawFrom(people[cpf].accounts[bank], if bank in banks then banks[bank] else null, value, hasTimeLimit, t);
    }

    /** generate_transaction_id: the first fresh draw becomes the id, under
        which the transaction is stored. */
    method GenerateTransactionId(transaction: Transaction, draws: seq<int>) returns (newId: int)
      requires IdDraws(draws) && HasFreshDraw(transactions.Keys, draws)
      modifies this`transactions
      ensures newId !in old(transactions) && 0 <= newId <= MaxTransactionId
      ensures exists k :: 0 <= k < |draws| && draws[k] == newId
                          && forall j :: 0 <= j < k ==> draws[j] in old(transactions)
      ensures transactions == old(transactions)[newId := transaction]
    {
      var tries;
      newId, tries := DrawFreshId(transactions.Keys, draws);
      transactions := transactions[newId := transaction];
    }

    /** The value make_transfer withdraws: the value plus the origin bank's
        fee on it across banks, the value itself within one bank. */
    function TaxedFor(value: real, originBank: string, targetBank: string): real
      reads this`banks
    {
      TaxedValue(value, if originBank in banks then banks[originBank].fee else 0.0, originBank != targetBank)
    }

    /** The try block of make_transfer gets as far as sys_draw: the taxed
        value needs the origin bank only across banks, and both people are
        looked up before the withdrawal. */
    predicate DrawAttempted(originId: int, originBank: string, targetId: int, targetBank: string)
      reads this`banks, this`people
    {
      (originBank == targetBank || originBank in banks) && originId in people && targetId in people
    }

    /** self.people[cpf].accounts[bank], or null where it raises KeyError. */
    function AccountOrNull(cpf: int, bank: string): Account?
      reads this`people, people.Values
    {
      if HasAccount(cpf, bank) then people[cpf].accounts[bank] else null
    }

    /** self.banks[bank], or null where it raises KeyError. */
    function BankOrNull(bank: string): Bank?
      reads this`banks
    {
      if bank in banks then banks[bank] else null
    }

    /** The try block of make_transfer: a missing origin bank across banks or
        a missing person ends it before the withdrawal, and so does a missing
        origin account, inside sys_draw. Otherwise it moves the money as
        MoveFunds does, on the accounts and banks the lookups find, which the
        ghost parameters name. */
    method TryTransfer(tx: Transaction, value: real, originId: int, originBank: string,
                       targetId: int, targetBank: string, isTimeLimited: bool, t: TimeOfDay,
                       ghost src: Account?, ghost dst: Account?, ghost ob: Bank?, ghost tb: Bank?,
                       ghost attempted: bool, ghost taxed: real)
      requires Valid()
      requires src == AccountOrNull(originId, originBank) && dst == AccountOrNull(targetId, targetBank)
      requires ob == BankOrNull(originBank) && tb == BankOrNull(targetBank)
      requires attempted == DrawAttempted(originId, originBank, targetId, targetBank)
      requires taxed == TaxedFor(value, originBank, targetBank)
      modifies tx`succeeded, AccountAt(originId, originBank), AccountAt(targetId, targetBank)
      modifies BankAt(originBank)`vault, BankAt(targetBank)`vault
      ensures transactions == old(transactions) && tx.id == old(tx.id) && tx.date == old(tx.date)
      ensures var moved := attempted && src != null;
              var granted := moved && DrawVerdict(old(src.balance), taxed, isTimeLimited, t) == Granted;
              var ok := granted && ob != null && taxed != 0.0;
              var debit := if granted then taxed else 0.0;
              var credit := if ok && dst != null then value else 0.0;
              && tx.succeeded == (old(tx.succeeded) || ok)
              && (src != null ==>
                    && src.balance == old(src.balance) - debit + (if src == dst then credit else 0.0)
                    && src.score == old(src.score) - debit * DrawScoreRate
                                                   + (if src == dst then credit * DepositScoreRate else 0.0))
              && (dst != null ==>
                    && dst.balance == old(dst.balance) + credit - (if src == dst then debit else 0.0)
                    && dst.score == old(dst.score) + credit * DepositScoreRate
                                                   - (if src == dst then debit * DrawScoreRate else 0.0))
              && (ob != null ==>
                    ob.vault == old(ob.vault) - (if ok then value else 0.0)
                                              + (if ob == tb then credit else 0.0))
              && (tb != null ==>
                    tb.vault == old(tb.vault) + credit - (if ob == tb && ok then value else 0.0))
    {
      if originBank != targetBank && originBank !in banks {
        return;
      }
      var taxedValue := TaxedFor(value, originBank, targetBank);
      if originId !in people || targetId !in people {
        return;
      }
      if !HasAccount(originId, originBank) {
        return;
      }
      var _ := MoveFunds(tx, people[originId].accounts[originBank], BankOrNull(originBank),
                         AccountOrNull(targetId, targetBank), BankOrNull(targetBank),
                         value, taxedValue, isTimeLimited, t);
    }

    /** The first lines of make_transfer: a transaction stamped with the
        date and stored under a fresh id, not yet succeeded. */
    method Register(value: real, originId: int, originBank: string, targetId: int, targetBank: string,
                    now: string, draws: seq<int>)
      returns (tx: Transaction)
      requires IdDraws(draws) && HasFreshDraw(transactions.Keys, draws)
      modifies this`transactions
      ensures fresh(tx) && tx.value == value && tx.date == now && !tx.succeeded
      ensures tx.originPerson == originId && tx.originBank == originBank
      ensures tx.targetPerson == targetId && tx.targetBank == targetBank
      ensures tx.id !in old(transactions) && 0 <= tx.id <= MaxTransactionId
      ensures transactions == old(transactions)[tx.id := tx]
    {
      tx := new Transaction(value, originId, originBank, targetId, targetBank);
      tx.date := now;
      tx.id := GenerateTransactionId(tx, draws);
    }

    /** make_transfer: stamp the transaction and store it under a fresh id
        before anything else, so a failed transfer is stored too; then run
        the try block, which alone decides whether it succeeded. */
    method MakeTransfer(value: real, originId: int, originBank: string, targetId: int, targetBank: string,
                        isTimeLimited: bool, now: string, t: TimeOfDay, draws: seq<int>)
      returns (tx: Transaction)
      requires Valid()
      requires IdDraws(draws) && HasFreshDraw(transactions.Keys, draws)
      modifies this`transactions, AccountAt(originId, originBank), AccountAt(targetId, targetBank)
      modifies BankAt(originBank)`vault, BankAt(targetBank)`vault
      ensures fresh(tx) && tx.value == value && tx.date == now
      ensures tx.originPerson == originId && tx.originBank == originBank
      ensures tx.targetPerson == targetId && tx.targetBank == targetBank
      ensures tx.id !in old(transactions) && 0 <= tx.id <= MaxTransactionId
      ensures transactions == old(transactions)[tx.id := tx]
      ensures var src := old(AccountOrNull(originId, originBank));
              var dst := old(AccountOrNull(targetId, targetBank));
              var ob := old(BankOrNull(originBank));
              var tb := old(BankOrNull(targetBank));
              var moved := old(DrawAttempted(originId, originBank, targetId, targetBank)) && src != null;
              var taxed := old(TaxedFor(value, originBank, targetBank));
              var granted := moved && DrawVerdict(old(src.balance), taxed, isTimeLimited, t) == Granted;
              var ok := granted && ob != null && taxed != 0.0;
              var debit := if granted then taxed else 0.0;
              var credit := if ok && dst != null then value else 0.0;
              && tx.succeeded == ok
              && (src != null ==>
                    && src.balance == old(src.balance) - debit + (if src == dst then credit else 0.0)
                    && src.score == old(src.score) - debit * DrawScoreRate
                                                   + (if src == dst then credit * DepositScoreRate else 0.0))
              && (dst != null ==>
                    && dst.balance == old(dst.balance) + credit - (if src == dst then debit else 0.0)
                    && dst.score == old(dst.score) + credit * DepositScoreRate
                                                   - (if src == dst then debit * DrawScoreRate else 0.0))
              && (ob != null ==>
                    ob.vault == old(ob.vault) - (if ok then value else 0.0)
                                              + (if ob == tb then credit else 0.0))
              && (tb != null ==>
                    tb.vault == old(tb.vault) + credit - (if ob == tb && ok then value else 0.0))
    {
      ghost var src := AccountOrNull(originId, originBank);
      ghost var dst := AccountOrNull(targetId, targetBank);
      ghost var ob := BankOrNull(originBank);
      ghost var tb := BankOrNull(targetBank);
      ghost var attempted := DrawAttempted(originId, originBank, targetId, targetBank);
      ghost var taxed := TaxedFor(value, originBank, targetBank);
      tx := Register(value, originId, originBank, targetId, targetBank, now, draws);
      TryTransfer(tx, value, originId, originBank, targetId, targetBank, isTimeLimited, t,
                  src, dst, ob, tb, attempted, taxed);
    }
  }
}
