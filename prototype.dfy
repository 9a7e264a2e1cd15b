/** teste.py, the first draft of the ledger: accounts without withdrawal
    limits, banks that keep their clients in a list, a transaction id that
    is one draw from 0..10000 with no uniqueness check, and a transfer
    without a fee
    whose errors are swallowed half way. A KeyError that escapes a method
    is its result flag `raised`; where the draft catches it, the model
    stops at that point and keeps the effects before it. */
module Prototype {

  // ---------------------------------------------------------------------
  // Constants

  const InitialScore: real := 100.0
  const InitialVault: real := 10000.0
  /** The score moves by a tenth of the amount both ways. */
  const ScoreRate: real := 0.1
  const MaxId: int := 10000

  /** A result of random.randint(0, 10000). */
  type IdDraw = d: int | 0 <= d <= MaxId

  // ---------------------------------------------------------------------
  // list.remove

  /** The list after list.remove(x): its first occurrence of x taken out,
      or the list unchanged when x is absent (where Python raises the
      ValueError that close_account catches). */
  function RemoveFirst<T(==)>(s: seq<T>, x: T): (r: seq<T>)
    ensures x !in s ==> r == s
    ensures x in s ==> |r| == |s| - 1
    ensures forall y :: y in r ==> y in s
  {
    if s == [] then []
    else if s[0] == x then s[1..]
    else [s[0]] + RemoveFirst(s[1..], x)
  }

  /** The position of the first occurrence of x. */
  function FirstIndex<T(==)>(s: seq<T>, x: T): (i: nat)
    requires x in s
    ensures i < |s| && s[i] == x && x !in s[..i]
  {
    if s[0] == x then 0
    else
      var j := FirstIndex(s[1..], x);
      assert s[..j + 1] == [s[0]] + s[1..][..j];
      j + 1
  }

  /** list.remove cuts the list at the first occurrence and glues the two
      sides back together. */
  lemma {:induction false} RemoveFirstAt<T>(s: seq<T>, x: T)
    requires x in s
    ensures RemoveFirst(s, x) == s[..FirstIndex(s, x)] + s[FirstIndex(s, x) + 1..]
  {
    if s[0] != x {
      RemoveFirstAt(s[1..], x);
      var j := FirstIndex(s[1..], x);
      assert s[1..][..j] == s[1..j + 1];
      assert s[1..][j + 1..] == s[j + 2..];
    }
  }

  /** list.remove takes out exactly one x when there is one, and nothing
      otherwise. */
  lemma {:induction false} RemoveFirstMultiset<T>(s: seq<T>, x: T)
    ensures multiset(RemoveFirst(s, x)) == multiset(s) - multiset{x}
  {
    if s != [] {
      assert s == [s[0]] + s[1..];
      if s[0] != x {
        RemoveFirstMultiset(s[1..], x);
      }
    }
  }

  /** Appending a client and removing it again gives back the same clients,
      and the same list when the client was not there before. */
  lemma {:induction false} RemoveAppended<T>(s: seq<T>, x: T)
    ensures multiset(RemoveFirst(s + [x], x)) == multiset(s)
    ensures x !in s ==> RemoveFirst(s + [x], x) == s
  {
    RemoveFirstMultiset(s + [x], x);
    assert multiset(s + [x]) == multiset(s) + multiset{x};
    if x !in s {
      RemoveFirstAt(s + [x], x);
      assert (s + [x])[..|s|] == s;
    }
  }

  // ---------------------------------------------------------------------
  // Entities

  class Account {
    var balance: real
    var score: real

    constructor (walletAmount: real)
      ensures balance == walletAmount && score == InitialScore
    {
      balance := walletAmount;
      score := InitialScore;
    }

    /** deposit: add the amount and a tenth of it to the score. */
    method Deposit(amount: real)
      modifies this
      ensures balance == old(balance) + amount
      ensures score == old(score) + amount * ScoreRate
    {
      balance := balance + amount;
      score := score + amount * 0.1;
    }

    /** draw: take the amount out exactly when the balance covers it, with
        no limit by time of day, lowering the score by a tenth of it. */
    method Draw(amount: real) returns (ok: bool)
      modifies this
      ensures ok <==> old(balance) - amount >= 0.0
      ensures ok ==> balance == old(balance) - amount && balance >= 0.0
      ensures ok ==> score == old(score) - amount * ScoreRate
      ensures !ok ==> balance == old(balance) && score == old(score)
    {
      var curr := balance - amount;
      if curr >= 0.0 {
        balance := curr;
        score := score - amount * 0.1;
        return true;
      } else {
        return false;
      }
    }
  }

  class Person {
    const name: string
    const id: int
    var accounts: map<string, Account>

    constructor (name: string, id: int)
      ensures this.name == name && this.id == id && accounts == map[]
    {
      this.name := name;
      this.id := id;
      accounts := map[];
    }

    /** add_account: a fresh account under the name, replacing any there. */
    method AddAccount(accountName: string, value: real := 0.0)
      modifies this
      ensures accountName in accounts && fresh(accounts[accountName])
      ensures accounts[accountName].balance == value && accounts[accountName].score == InitialScore
      ensures accounts == old(accounts)[accountName := accounts[accountName]]
    {
      var account := new Account(value);
      accounts := accounts[accountName := account];
    }

    /** remove_account: pop the account; a missing name raises KeyError,
        which nothing in the draft catches. */
    method RemoveAccount(accountName: string)
      requires accountName in accounts
      modifies this
      ensures accounts == old(accounts) - {accountName}
    {
      accounts := accounts - {accountName};
    }
  }

  class Transaction {
    const value: real
    const id: int
    var succeeded: bool
    const originPerson: Person
    const originBank: string
    const targetPerson: Person
    const targetBank: string
    var date: string

    /** A transaction whose id is the value generate_id drew, not checked
        against any other id. */
    constructor (value: real, draw: IdDraw, origin: Person, originBank: string,
                 target: Person, targetBank: string)
      ensures this.value == value && id == draw && !succeeded && date == ""
      ensures originPerson == origin && this.originBank == originBank
      ensures targetPerson == target && this.targetBank == targetBank
    {
      this.value := value;
      id := draw;
      succeeded := false;
      originPerson := origin;
      this.originBank := originBank;
      targetPerson := target;
      this.targetBank := targetBank;
      date := "";
    }
  }

  class Bank {
    const name: string
    var clients: seq<Person>
    var clientsAmount: int
    var vault: real
    const fee: real

    constructor (name: string, fee: real := 0.0)
      ensures this.name == name && this.fee == fee
      ensures clients == [] && clientsAmount == 0 && vault == InitialVault
    {
      this.name := name;
      clients := [];
      clientsAmount := 0;
      vault := InitialVault;
      this.fee := fee;
    }

    /** open_account as written: the client is appended, and then indexing
        the list with the person raises TypeError, so no account is added
        and the count does not move. */
    method OpenAccountAsWritten(person: Person) returns (typeError: bool)
      modifies this`clients
      ensures clients == old(clients) + [person]
      ensures typeError
    {
      clients := clients + [person];
      typeError := true;
    }

    /** open_account as intended: append the client, give it an empty
        account under the bank's name and count it. */
    method OpenAccount(person: Person)
      modifies this`clients, this`clientsAmount, person
      ensures clients == old(clients) + [person]
      ensures clientsAmount == old(clientsAmount) + 1
      ensures name in person.accounts && fresh(person.accounts[name])
      ensures person.accounts[name].balance == 0.0 && person.accounts[name].score == InitialScore
      ensures person.accounts == old(person.accounts)[name := person.accounts[name]]
    {
      clients := clients + [person];
      person.AddAccount(name, 0.0);
      clientsAmount := clientsAmount + 1;
    }

    /** close_account: remove the first occurrence of the client and count
        one less; a person who is not a client raises ValueError, caught by
        counting one more. Only the first case keeps the count in step with
        the list. */
    method CloseAccount(person: Person)
      modifies this`clients, this`clientsAmount
      ensures clients == RemoveFirst(old(clients), person)
      ensures multiset(clients) == multiset(old(clients)) - multiset{person}
      ensures clientsAmount == old(clientsAmount) + (if person in old(clients) then -1 else 1)
      ensures clientsAmount - |clients| == old(clientsAmount - |clients|) + (if person in old(clients) then 0 else 1)
    {
      RemoveFirstMultiset(clients, person);
      if person in clients {
        clients := RemoveFirst(clients, person);
        clientsAmount := clientsAmount - 1;
      } else {
        clientsAmount := clientsAmount + 1;
      }
    }
  }

  // ---------------------------------------------------------------------
  // The steps of deposit and make_transaction once the account is found

  function Present(b: Bank?): set<Bank> {
    if b == null then {} else {b}
  }

  /** deposit after finding the account: credit it, then add the value to
      the vault of the bank, or raise KeyError when there is no such bank,
      with the account already credited. */
  method DepositInto(a: Account, b: Bank?, value: real) returns (raised: bool)
    modifies a, Present(b)`vault
    ensures raised <==> b == null
    ensures a.balance == old(a.balance) + value && a.score == old(a.score) + value * ScoreRate
    ensures b != null ==> b.vault == old(b.vault) + value
  {
    a.Deposit(value);
    if b == null {
      return true;
    }
    b.vault := b.vault + value;
    raised := false;
  }

  /** The try block of make_transaction once the origin account is found:
      draw the value; on success take it from the origin vault and deposit
      it into the target. Each missing bank or account raises a KeyError
      that ends the block, so only the steps before it happen. The ensures
      also hold when the two accounts or the two banks are the same. */
  method MoveFunds(src: Account, ob: Bank?, dst: Account?, tb: Bank?, value: real)
    modifies src, Present(ob)`vault, if dst == null then {} else {dst}, Present(tb)`vault
    ensures var granted := old(src.balance) - value >= 0.0;
            var paid := granted && ob != null;
            var received := paid && dst != null && tb != null;
            var debit := if granted then value else 0.0;
            var credit := if paid && dst != null then value else 0.0;
            && src.balance == old(src.balance) - debit + (if src == dst then credit else 0.0)
            && src.score == old(src.score) - debit * ScoreRate + (if src == dst then credit * ScoreRate else 0.0)
            && (dst != null ==>
                  && dst.balance == old(dst.balance) + credit - (if src == dst then debit else 0.0)
                  && dst.score == old(dst.score) + credit * ScoreRate - (if src == dst then debit * ScoreRate else 0.0))
            && (ob != null ==>
                  ob.vault == old(ob.vault) - (if paid then value else 0.0) + (if ob == tb && received then value else 0.0))
            && (tb != null ==>
                  tb.vault == old(tb.vault) + (if received then value else 0.0) - (if ob == tb && paid then value else 0.0))
  {
    var done := src.Draw(value);
    if done {
      if ob == null {
        return;
      }
      ob.vault := ob.vault - value;
      if dst != null {
        var _ := DepositInto(dst, tb, value);
      }
    }
  }

  // ---------------------------------------------------------------------
  // The system

  class System {
    var banks: map<string, Bank>
    var people: map<int, Person>

    constructor ()
      ensures banks == map[] && people == map[]
    {
      banks := map[];
      people := map[];
    }

    predicate HasAccount(id: int, bank: string)
      reads this`people, people.Values
    {
      id in people && bank in people[id].accounts
    }

    ghost function AccountAt(id: int, bank: string): set<Account>
      reads this`people, people.Values
    {
      if HasAccount(id, bank) then {people[id].accounts[bank]} else {}
    }

    ghost function BankAt(bank: string): set<Bank>
      reads this`banks
    {
      if bank in banks then {banks[bank]} else {}
    }

    /** self.people[id].accounts[bank], or null where it raises KeyError. */
    function AccountOrNull(id: int, bank: string): Account?
      reads this`people, people.Values
    {
      if HasAccount(id, bank) then people[id].accounts[bank] else null
    }

    /** self.banks[bank], or null where it raises KeyError. */
    function BankOrNull(bank: string): Bank?
      reads this`banks
    {
      if bank in banks then banks[bank] else null
    }

    /** create_bank: a new bank without fee under the name, replacing any
        bank already there. */
    method CreateBank(name: string)
      modifies this`banks
      ensures name in banks && fresh(banks[name])
      ensures banks[name].name == name && banks[name].fee == 0.0
      ensures banks[name].clients == [] && banks[name].clientsAmount == 0
      ensures banks[name].vault == InitialVault
      ensures banks == old(banks)[name := banks[name]]
    {
      var bank := new Bank(name);
      banks := banks[name := bank];
    }

    /** create_person: a new person without accounts under the id,
        replacing any person already there. */
    method CreatePerson(name: string, id: int)
      modifies this`people
      ensures id in people && fresh(people[id])
      ensures people[id].name == name && people[id].id == id && people[id].accounts == map[]
      ensures people == old(people)[id := people[id]]
    {
      var person := new Person(name, id);
      people := people[id := person];
    }

    /** deposit: credit the account and then the vault of the bank. Its
        handler catches ValueError only, so a missing person, account or
        bank raises KeyError to the caller, after the account is credited
        in the last case. */
    method Deposit(personId: int, bank: string, value: real) returns (raised: bool)
      modifies AccountAt(personId, bank), BankAt(bank)`vault
      ensures raised <==> !(old(HasAccount(personId, bank)) && bank in banks)
      ensures var a := old(AccountOrNull(personId, bank));
              a != null ==> a.balance == old(a.balance) + value && a.score == old(a.score) + value * ScoreRate
      ensures bank in banks ==>
                banks[bank].vault == old(banks[bank].vault) + (if old(HasAccount(personId, bank)) then value else 0.0)
    {
      if !HasAccount(personId, bank) {
        return true;
      }
      raised := DepositInto(people[personId].accounts[bank], BankOrNull(bank), value);
    }

    /** make_transaction: both people are looked up to build the
        transaction before the try block, so a missing one raises KeyError
        with nothing changed. The transaction is stamped with the date and
        then dropped: it is neither stored nor returned, and never marked
        succeeded. The try block catches every error, so the transfer
        stops at the first missing account or bank (MoveFunds). */
    method MakeTransaction(value: real, originId: int, originBank: string, targetId: int, targetBank: string,
                           draw: IdDraw, now: string) returns (raised: bool)
      modifies AccountAt(originId, originBank), AccountAt(targetId, targetBank)
      modifies BankAt(originBank)`vault, BankAt(targetBank)`vault
      ensures raised <==> !(originId in people && targetId in people)
      ensures var src := old(AccountOrNull(originId, originBank));
              var dst := old(AccountOrNull(targetId, targetBank));
              var ob := old(BankOrNull(originBank));
              var tb := old(BankOrNull(targetBank));
              var granted := !raised && src != null && old(src.balance) - value >= 0.0;
              var paid := granted && ob != null;
              var received := paid && dst != null && tb != null;
              var debit := if granted then value else 0.0;
              var credit := if paid && dst != null then value else 0.0;
              && (src != null ==>
                    && src.balance == old(src.balance) - debit + (if src == dst then credit else 0.0)
                    && src.score == old(src.score) - debit * ScoreRate
                                                   + (if src == dst then credit * ScoreRate else 0.0))
              && (dst != null ==>
                    && dst.balance == old(dst.balance) + credit - (if src == dst then debit else 0.0)
                    && dst.score == old(dst.score) + credit * ScoreRate
                                                   - (if src == dst then debit * ScoreRate else 0.0))
              && (ob != null ==>
                    ob.vault == old(ob.vault) - (if paid then value else 0.0)
                                              + (if ob == tb && received then value else 0.0))
              && (tb != null ==>
                    tb.vault == old(tb.vault) + (if received then value else 0.0)
                                              - (if ob == tb && paid then value else 0.0))
    {
      if originId !in people || targetId !in people {
        return true;
      }
      raised := false;
      var transaction := new Transaction(value, draw, people[originId], originBank,
                                         people[targetId], targetBank);
      transaction.date := now;
      if !HasAccount(originId, originBank) {
        return;
      }
      MoveFunds(people[originId].accounts[originBank], BankOrNull(originBank),
                AccountOrNull(targetId, targetBank), BankOrNull(targetBank), value);
    }
  }
}
