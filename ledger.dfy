/** The ledger entities that SUB.py and system_main.py both define: Account,
    Person and Bank, the withdrawal rule they apply, the transfer surcharge,
    the retry loop that draws a fresh transaction id and the close-accounts
    loop of remove_person. The two files differ in one field: SUB.py's
    Account carries is_limited, which system_main.py's Account does not have
    and never reads; the model keeps it and the console never sets it. */
module Ledger {

  // ---------------------------------------------------------------------
  // Constants

  const InitialScore: real := 100.0
  const InitialVault: real := 10000.0
  const DepositScoreRate: real := 0.1
  const DrawScoreRate: real := 0.15
  const MaxDayDraw: real := 100000.0
  const MaxNightDraw: real := MaxDayDraw / 2.0
  const MaxTransactionId: int := 999_999_999

  // ---------------------------------------------------------------------
  // Time of day

  const MicrosPerHour: int := 3_600_000_000

  /** A wall-clock time of day, in microseconds since midnight. */
  type TimeOfDay = t: int | 0 <= t < 24 * MicrosPerHour

  /** 04:00:00 and 21:00:00. */
  const NightEnd: TimeOfDay := 4 * MicrosPerHour
  const NightStart: TimeOfDay := 21 * MicrosPerHour

  /** The night window of the withdrawal limit: strictly before 04:00 or
      strictly after 21:00. */
  predicate IsNight(now: TimeOfDay) {
    now < NightEnd || now > NightStart
  }

  // ---------------------------------------------------------------------
  // The withdrawal rule of Account.draw

  /** Why a withdrawal is refused, or that it is granted. */
  datatype DrawOutcome = Granted | InsufficientFunds | NightLimitExceeded | DayLimitExceeded

  /** The decision Account.draw takes: the balance first, then, for a limited
      withdrawal, the night cap and then the day cap. */
  function DrawVerdict(balance: real, amount: real, hasTimeLimit: bool, now: TimeOfDay): (r: DrawOutcome)
    ensures r != InsufficientFunds <==> amount <= balance
    ensures r == Granted ==> balance - amount >= 0.0
    ensures !hasTimeLimit ==> (r == Granted <==> amount <= balance)
    ensures hasTimeLimit && IsNight(now) && MaxNightDraw < amount <= balance ==> r == NightLimitExceeded
    ensures hasTimeLimit && MaxDayDraw < amount <= balance ==> r != Granted
    ensures amount <= MaxNightDraw && amount <= balance ==> r == Granted
    ensures r == NightLimitExceeded ==> hasTimeLimit && IsNight(now) && amount > MaxNightDraw
    ensures r == DayLimitExceeded ==> hasTimeLimit && !IsNight(now) && amount > MaxDayDraw
  {
    if balance - amount >= 0.0 then
      if hasTimeLimit && IsNight(now) && amount > MaxNightDraw then NightLimitExceeded
      else if hasTimeLimit && amount > MaxDayDraw then DayLimitExceeded
      else Granted
    else InsufficientFunds
  }

  // ---------------------------------------------------------------------
  // The transfer surcharge

  /** What a transfer withdraws from its source: the value, plus the origin
      bank's fee on it when the money leaves for another bank. */
  function TaxedValue(value: real, fee: real, crossBank: bool): (taxed: real)
    ensures crossBank ==> taxed == value * (1.0 + fee)
    ensures !crossBank ==> taxed == value
    ensures taxed - value == if crossBank then fee * value else 0.0
  {
    if crossBank then value + fee * value else value
  }

  // ---------------------------------------------------------------------
  // Transaction ids

  /** The stream of random.randint(0, 999_999_999) results. */
  predicate IdDraws(draws: seq<int>) {
    forall i :: 0 <= i < |draws| ==> 0 <= draws[i] <= MaxTransactionId
  }

  /** Some draw of the stream is not taken yet, so the retry loop stops. */
  predicate HasFreshDraw(taken: set<int>, draws: seq<int>) {
    exists i :: 0 <= i < |draws| && draws[i] !in taken
  }

  /** The retry loop of generate_transaction_id: draw until the id is not a
      key yet. The result is the first such draw. */
  method DrawFreshId(taken: set<int>, draws: seq<int>) returns (id: int, tries: nat)
    requires IdDraws(draws)
    requires HasFreshDraw(taken, draws)
    ensures tries < |draws| && id == draws[tries]
    ensures id !in taken && 0 <= id <= MaxTransactionId
    ensures forall j :: 0 <= j < tries ==> draws[j] in taken
  {
    tries := 0;
    id := draws[0];
    while id in taken
      invariant tries < |draws| && id == draws[tries]
      invariant forall j :: 0 <= j <= tries && draws[j] !in taken ==> j == tries
      invariant exists i :: tries <= i < |draws| && draws[i] !in taken
      decreases |draws| - tries
    {
      tries := tries + 1;
      id := draws[tries];
    }
  }

  // ---------------------------------------------------------------------
  // Entities

  class Account {
    var balance: real
    var score: real
    const maxDayDraw: real := MaxDayDraw
    const maxNightDraw: real := MaxNightDraw
    /** Set to False in SUB.py and never changed. */
    const isLimited: bool := false

    constructor (walletAmount: real)
      ensures balance == walletAmount && score == InitialScore && !isLimited
    {
      balance := walletAmount;
      score := InitialScore;
    }

    /** deposit: add the amount, raise the score by a tenth of it and return
        the new balance. */
    method Deposit(amount: real) returns (total: real)
      modifies this
      ensures balance == old(balance) + amount
      ensures score == old(score) + amount * DepositScoreRate
      ensures total == balance
    {
      balance := balance + amount;
      score := score + amount * 0.1;
      total := balance;
    }

    /** draw: take the amount out when DrawVerdict grants it, lowering the
        score by 0.15 of it; otherwise change nothing. */
    method Draw(amount: real, hasTimeLimit: bool, now: TimeOfDay) returns (ok: bool)
      modifies this
      ensures ok <==> DrawVerdict(old(balance), amount, hasTimeLimit, now) == Granted
      ensures ok ==> balance == old(balance) - amount && balance >= 0.0
      ensures ok ==> score == old(score) - amount * DrawScoreRate
      ensures !ok ==> balance == old(balance) && score == old(score)
    {
      var curr := balance - amount;
      if curr >= 0.0 {
        if hasTimeLimit {
          if (now < NightEnd || now > NightStart) && amount > maxNightDraw {
            return false;
          }
          if amount > maxDayDraw {
            return false;
          }
        }
        balance := curr;
        score := score - amount * 0.15;
        return true;
      } else {
        return false;
      }
    }
  }

  class Person {
    const name: string
    const cpf: int
    var accounts: map<string, Account>

    constructor (name: string, cpf: int)
      ensures this.name == name && this.cpf == cpf && accounts == map[]
    {
      this.name := name;
      this.cpf := cpf;
      accounts := map[];
    }

    /** add_account: install a fresh account under the bank name, replacing
        any account already there. */
    method AddAccount(accountBank: string, value: real := 0.0)
      modifies this
      ensures accountBank in accounts && fresh(accounts[accountBank])
      ensures accounts[accountBank].balance == value && accounts[accountBank].score == InitialScore
      ensures !accounts[accountBank].isLimited
      ensures accounts == old(accounts)[accountBank := accounts[accountBank]]
    {
      var account := new Account(value);
      accounts := accounts[accountBank := account];
    }

    /** remove_account: drop the account held at the bank. */
    method RemoveAccount(accountBank: string)
      requires accountBank in accounts
      modifies this
      ensures accounts == old(accounts) - {accountBank}
    {
      accounts := accounts - {accountBank};
    }
  }

  class Bank {
    const name: string
    const fee: real
    var clients: map<int, Person>
    var vault: real
    var clientsAmount: int

    constructor (name: string, fee: real := 0.0)
      ensures this.name == name && this.fee == fee
      ensures clients == map[] && vault == InitialVault && clientsAmount == 0
    {
      this.name := name;
      this.fee := fee;
      clients := map[];
      vault := InitialVault;
      clientsAmount := 0;
    }

    /** The client registered under the cpf still holds an account here:
        close_account will not raise KeyError. */
    ghost predicate Holds(cpf: int)
      reads this, clients.Values
    {
      cpf in clients && name in clients[cpf].accounts
    }

    /** The object close_account changes besides the bank. */
    ghost function Registered(cpf: int): set<Person>
      reads this
    {
      if cpf in clients then {clients[cpf]} else {}
    }

    /** open_account: register the client under its cpf, give it a fresh
        zero-balance account under this bank's name and count one more
        client. */
    method OpenAccount(client: Person)
      modifies this`clients, this`clientsAmount, client
      ensures clients == old(clients)[client.cpf := client]
      ensures clientsAmount == old(clientsAmount) + 1
      ensures name in client.accounts && fresh(client.accounts[name])
      ensures client.accounts[name].balance == 0.0 && client.accounts[name].score == InitialScore
      ensures client.accounts == old(client.accounts)[name := client.accounts[name]]
    {
      clients := clients[client.cpf := client];
      client.AddAccount(name);
      clientsAmount := clientsAmount + 1;
    }

    /** close_account: when the client registered under the cpf holds an
        account here, drop that account and the registration and count one
        client less; on the KeyError path count one client MORE. */
    method CloseAccount(client: Person)
      modifies this`clients, this`clientsAmount, Registered(client.cpf)
      ensures old(Holds(client.cpf)) ==>
                clients == old(clients) - {client.cpf}
                && clientsAmount == old(clientsAmount) - 1
                && old(clients[client.cpf]).accounts == old(clients[client.cpf].accounts) - {name}
      ensures !old(Holds(client.cpf)) ==>
                clients == old(clients)
                && clientsAmount == old(clientsAmount) + 1
                && (client.cpf in clients ==> clients[client.cpf].accounts == old(clients[client.cpf].accounts))
    {
      if client.cpf in clients && name in clients[client.cpf].accounts {
        var owner := clients[client.cpf];
        owner.accounts := owner.accounts - {name};
        clients := clients - {client.cpf};
        clientsAmount := clientsAmount - 1;
      } else {
        clientsAmount := clientsAmount + 1;
      }
    }
  }

  // ---------------------------------------------------------------------
  // The key order of remove_person, shared by both ledgers

  /** The bank names of the person's account map, each once, in the order
      list(accounts.keys()) gives them. */
  predicate Listed(order: seq<string>, keys: set<string>) {
    && (forall i, j :: 0 <= i < j < |order| ==> order[i] != order[j])
    && (set i | 0 <= i < |order| :: order[i]) == keys
  }

  /** How many keys of the order the for loop of remove_person gets through
      before self.banks[acc] raises KeyError: the longest prefix whose every
      key names a bank. */
  function Reached(order: seq<string>, known: set<string>): (n: nat)
    ensures n <= |order|
    ensures forall i :: 0 <= i < n ==> order[i] in known
    ensures n < |order| ==> order[n] !in known
  {
    if order == [] || order[0] !in known then 0 else 1 + Reached(order[1..], known)
  }

  /** The keys of the first n entries of the order. */
  function Prefix(order: seq<string>, n: nat): set<string>
    requires n <= |order|
  {
    set i | 0 <= i < n :: order[i]
  }

  /** A loop that reaches the end of the order has visited every key of the
      account map. */
  lemma PrefixOfListed(order: seq<string>, keys: set<string>)
    requires Listed(order, keys)
    ensures Prefix(order, |order|) == keys
  {
  }

  // ---------------------------------------------------------------------
  // The close-accounts loop of remove_person
  //
  // Both ledgers close the person's account at the bank of every key of its
  // account map, one close_account per key.

  /** The banks stored under the given names. */
  ghost function BanksAt(banks: map<string, Bank>, keys: set<string>): set<Bank>
    requires keys <= banks.Keys
  {
    set acc | acc in keys :: banks[acc]
  }

  /** The bank names whose account the person q loses, given which client
      each successful close_account finds. */
  ghost function DroppedFrom(held: map<string, Person>, q: Person): set<string> {
    set acc | acc in held && held[acc] == q
  }

  /** For each key whose bank still holds an account for the client
      registered under the cpf, that client: the close_account calls of the
      loop that take the success path. */
  ghost function HeldAmong(banks: map<string, Bank>, keys: set<string>, cpf: int): map<string, Person>
    requires keys <= banks.Keys
    reads BanksAt(banks, keys)
    reads set b, p | b in BanksAt(banks, keys) && p in b.clients.Values :: p
  {
    map acc | acc in keys && banks[acc].Holds(cpf) :: banks[acc].clients[cpf]
  }

  /** The bank of every key of the person's account map stores the person
      itself under its cpf, as open_account leaves it. */
  ghost predicate RegisteredEverywhere(banks: map<string, Bank>, person: Person)
    reads person, banks.Values
  {
    forall acc | acc in person.accounts ::
      acc in banks && person.cpf in banks[acc].clients && banks[acc].clients[person.cpf] == person
  }

  /** When the person is registered at the bank of every one of its
      accounts, the loop over a listing of the account keys reaches its end,
      every close_account takes the success path and finds the person
      itself, and so the loop drops every account of the person. */
  lemma ClosesEverything(banks: map<string, Bank>, order: seq<string>, person: Person)
    requires forall k | k in banks :: banks[k].name == k
    requires Listed(order, person.accounts.Keys)
    requires RegisteredEverywhere(banks, person)
    ensures Reached(order, banks.Keys) == |order|
    ensures Prefix(order, |order|) == person.accounts.Keys
    ensures var held := HeldAmong(banks, person.accounts.Keys, person.cpf);
            && held.Keys == person.accounts.Keys
            && (forall acc | acc in held :: held[acc] == person)
            && DroppedFrom(held, person) == person.accounts.Keys
  {
    PrefixOfListed(order, person.accounts.Keys);
    var held := HeldAmong(banks, person.accounts.Keys, person.cpf);
    forall acc | acc in person.accounts
      ensures acc in held && held[acc] == person
    {
      assert banks[acc].name == acc;
    }
  }

  /** A person whose every account key is dropped ends with no accounts. */
  lemma EmptiedBy(person: Person, accounts0: map<string, Account>, dropped: set<string>, owners: set<Person>)
    requires dropped == accounts0.Keys
    requires accounts0 != map[] ==> person in owners
    requires person in owners ==> person.accounts == accounts0 - dropped
    requires person !in owners ==> person.accounts == accounts0
    ensures person.accounts == map[]
  {
  }

  lemma DroppedStep(held: map<string, Person>, q: Person, done: set<string>, acc: string)
    ensures DroppedFrom(held, q) * (done + {acc})
         == DroppedFrom(held, q) * done + (if acc in held && held[acc] == q then {acc} else {})
  {
  }

  lemma MapMinusStep<K, V>(m: map<K, V>, s: set<K>, x: K)
    ensures m - s - {x} == m - (s + {x})
  {
  }

  /** The client maps of the banks stored under the keys. */
  ghost function ClientsOf(banks: map<string, Bank>, keys: set<string>): (m: map<string, map<int, Person>>)
    requires keys <= banks.Keys
    reads BanksAt(banks, keys)
    ensures m.Keys == keys
  {
    map a | a in keys :: banks[a].clients
  }

  /** The client counters of the banks stored under the keys. */
  ghost function CountsOf(banks: map<string, Bank>, keys: set<string>): (m: map<string, int>)
    requires keys <= banks.Keys
    reads BanksAt(banks, keys)
    ensures m.Keys == keys
  {
    map a | a in keys :: banks[a].clientsAmount
  }

  /** The account maps of the given people. */
  ghost function AccountsOf(owners: set<Person>): (m: map<Person, map<string, Account>>)
    reads owners
    ensures m.Keys == owners
  {
    map q | q in owners :: q.accounts
  }

  /** Which close_account calls take the success path, and which client
      each finds, read off the client and account maps before the loop. */
  ghost predicate HeldMatches(keys: set<string>, cpf: int, held: map<string, Person>,
                              clients0: map<string, map<int, Person>>,
                              accounts0: map<Person, map<string, Account>>, owners: set<Person>)
    requires keys <= clients0.Keys && owners <= accounts0.Keys
  {
    && (forall a | a in keys && cpf in clients0[a] :: clients0[a][cpf] in owners)
    && (forall a | a in keys :: a in held <==> cpf in clients0[a] && a in accounts0[clients0[a][cpf]])
    && (forall a | a in held :: a in keys && cpf in clients0[a] && held[a] == clients0[a][cpf])
  }

  /** The client maps once the banks of done have been closed. */
  ghost predicate ClientsClosed(clients: map<string, map<int, Person>>, keys: set<string>, cpf: int,
                                held: map<string, Person>, clients0: map<string, map<int, Person>>,
                                done: set<string>)
    requires keys <= clients.Keys && keys <= clients0.Keys
  {
    forall a | a in keys ::
      && (a in held && a in done ==> clients[a] == clients0[a] - {cpf})
      && (a !in held || a !in done ==> clients[a] == clients0[a])
  }

  /** The counters once the banks of done have been closed. */
  ghost predicate CountsClosed(counts: map<string, int>, keys: set<string>, held: map<string, Person>,
                               counts0: map<string, int>, done: set<string>)
    requires keys <= counts.Keys && keys <= counts0.Keys
  {
    forall a | a in keys :: counts[a] == counts0[a] + (if a !in done then 0 else if a in held then -1 else 1)
  }

  /** The registered clients' account maps once the banks of done have been
      closed. */
  ghost predicate AccountsClosed(accounts: map<Person, map<string, Account>>, owners: set<Person>,
                                 held: map<string, Person>, accounts0: map<Person, map<string, Account>>,
                                 done: set<string>)
    requires owners <= accounts.Keys && owners <= accounts0.Keys
  {
    forall q | q in owners :: accounts[q] == accounts0[q] - DroppedFrom(held, q) * done
  }

  lemma ClientsStep(before: map<string, map<int, Person>>, after: map<string, map<int, Person>>,
                    keys: set<string>, cpf: int, held: map<string, Person>,
                    clients0: map<string, map<int, Person>>, done: set<string>, acc: string)
    requires keys == before.Keys == after.Keys && keys <= clients0.Keys && acc in keys && acc !in done
    requires forall a | a in keys && a != acc :: after[a] == before[a]
    requires acc in held ==> after[acc] == before[acc] - {cpf}
    requires acc !in held ==> after[acc] == before[acc]
    requires ClientsClosed(before, keys, cpf, held, clients0, done)
    ensures ClientsClosed(after, keys, cpf, held, clients0, done + {acc})
  {
  }

  lemma CountsStep(before: map<string, int>, after: map<string, int>, keys: set<string>,
                   held: map<string, Person>, counts0: map<string, int>, done: set<string>, acc: string)
    requires keys == before.Keys == after.Keys && keys <= counts0.Keys && acc in keys && acc !in done
    requires forall a | a in keys && a != acc :: after[a] == before[a]
    requires after[acc] == before[acc] + (if acc in held then -1 else 1)
    requires CountsClosed(before, keys, held, counts0, done)
    ensures CountsClosed(after, keys, held, counts0, done + {acc})
  {
  }

  lemma AccountsStep(before: map<Person, map<string, Account>>, after: map<Person, map<string, Account>>,
                     owners: set<Person>, held: map<string, Person>,
                     accounts0: map<Person, map<string, Account>>, done: set<string>, acc: string)
    requires owners == before.Keys == after.Keys && owners <= accounts0.Keys
    requires forall q | q in owners ::
               && (acc in held && held[acc] == q ==> after[q] == before[q] - {acc})
               && (!(acc in held && held[acc] == q) ==> after[q] == before[q])
    requires AccountsClosed(before, owners, held, accounts0, done)
    ensures AccountsClosed(after, owners, held, accounts0, done + {acc})
  {
    forall q | q in owners
      ensures after[q] == accounts0[q] - DroppedFrom(held, q) * (done + {acc})
    {
      DroppedStep(held, q, done, acc);
      if acc in held && held[acc] == q {
        MapMinusStep(accounts0[q], DroppedFrom(held, q) * done, acc);
      }
    }
  }

  lemma SomeLeft(keys: set<string>, done: set<string>)
    requires done <= keys && done != keys
    ensures exists a :: a in keys && a !in done
  {
  }

  lemma DroppedWithin(held: map<string, Person>, keys: set<string>, q: Person)
    requires held.Keys <= keys
    ensures DroppedFrom(held, q) * keys == DroppedFrom(held, q)
  {
  }

  /** The for loop of remove_person: close_account for the person at the
      bank of every key, in any order. held says, for each key whose bank
      takes the success path, which registered client it finds; owners
      holds every client registered under the cpf at those banks. */
  method CloseAccounts(banks: map<string, Bank>, keys: set<string>, person: Person,
                       ghost held: map<string, Person>, ghost owners: set<Person>)
    requires keys <= banks.Keys
    requires forall k | k in banks :: banks[k].name == k
    requires forall acc | acc in keys :: acc in held <==> banks[acc].Holds(person.cpf)
    requires forall acc | acc in held ::
               acc in keys && person.cpf in banks[acc].clients && held[acc] == banks[acc].clients[person.cpf]
    requires forall acc | acc in keys && person.cpf in banks[acc].clients :: banks[acc].clients[person.cpf] in owners
    modifies BanksAt(banks, keys)`clients, BanksAt(banks, keys)`clientsAmount, owners
    ensures forall acc | acc in keys ::
              banks[acc].clients == if acc in held then old(banks[acc].clients) - {person.cpf} else old(banks[acc].clients)
    ensures forall acc | acc in keys ::
              banks[acc].clientsAmount == old(banks[acc].clientsAmount) + (if acc in held then -1 else 1)
    ensures forall q | q in owners :: q.accounts == old(q.accounts) - DroppedFrom(held, q)
  {
    var cpf := person.cpf;
    ghost var clients0 := ClientsOf(banks, keys);
    ghost var counts0 := CountsOf(banks, keys);
    ghost var accounts0 := AccountsOf(owners);
    assert HeldMatches(keys, cpf, held, clients0, accounts0, owners);
    var done := {};
    while done != keys
      invariant done <= keys
      invariant ClientsClosed(ClientsOf(banks, keys), keys, cpf, held, clients0, done)
      invariant CountsClosed(CountsOf(banks, keys), keys, held, counts0, done)
      invariant AccountsClosed(AccountsOf(owners), owners, held, accounts0, done)
      decreases keys - done
    {
      SomeLeft(keys, done);
      var acc :| acc in keys && acc !in done;
      CloseStep(banks, keys, person, held, owners, clients0, counts0, accounts0, done, acc, banks[acc]);
      done := done + {acc};
    }
    forall q | q in owners
      ensures q.accounts == old(q.accounts) - DroppedFrom(held, q)
    {
      DroppedWithin(held, keys, q);
    }
  }

  /** close_account at the bank of acc, with its effect spelled out for
      every bank of keys and every client of owners. */
  method CloseOne(banks: map<string, Bank>, keys: set<string>, person: Person, acc: string, b: Bank,
                  ghost registered: Person?, ghost owners: set<Person>)
    requires keys <= banks.Keys && acc in keys && banks[acc] == b
    requires forall k | k in banks :: banks[k].name == k
    requires registered == if person.cpf in b.clients then b.clients[person.cpf] else null
    requires registered != null ==> registered in owners
    modifies b`clients, b`clientsAmount, owners
    ensures forall a | a in keys && a != acc ::
              banks[a].clients == old(banks[a].clients) && banks[a].clientsAmount == old(banks[a].clientsAmount)
    ensures old(b.Holds(person.cpf)) ==>
              && b.clients == old(b.clients) - {person.cpf} && b.clientsAmount == old(b.clientsAmount) - 1
              && registered != null && registered.accounts == old(registered.accounts) - {acc}
    ensures !old(b.Holds(person.cpf)) ==>
              && b.clients == old(b.clients) && b.clientsAmount == old(b.clientsAmount) + 1
              && (registered != null ==> registered.accounts == old(registered.accounts))
    ensures forall q | q in owners && q != registered :: q.accounts == old(q.accounts)
  {
    assert forall other | other in keys && other != acc :: banks[other] != b;
    b.CloseAccount(person);
  }

  /** One pass of the loop of CloseAccounts: close_account at the bank of
      acc keeps the loop's bookkeeping against the snapshots taken before
      the loop. */
  method CloseStep(banks: map<string, Bank>, keys: set<string>, person: Person,
                   ghost held: map<string, Person>, ghost owners: set<Person>,
                   ghost clients0: map<string, map<int, Person>>, ghost counts0: map<string, int>,
                   ghost accounts0: map<Person, map<string, Account>>,
                   ghost done: set<string>, acc: string, b: Bank)
    requires keys <= banks.Keys && keys <= clients0.Keys && keys <= counts0.Keys && owners <= accounts0.Keys
    requires forall k | k in banks :: banks[k].name == k
    requires acc in keys && acc !in done && banks[acc] == b
    requires HeldMatches(keys, person.cpf, held, clients0, accounts0, owners)
    requires ClientsClosed(ClientsOf(banks, keys), keys, person.cpf, held, clients0, done)
    requires CountsClosed(CountsOf(banks, keys), keys, held, counts0, done)
    requires AccountsClosed(AccountsOf(owners), owners, held, accounts0, done)
    modifies b`clients, b`clientsAmount, owners
    ensures ClientsClosed(ClientsOf(banks, keys), keys, person.cpf, held, clients0, done + {acc})
    ensures CountsClosed(CountsOf(banks, keys), keys, held, counts0, done + {acc})
    ensures AccountsClosed(AccountsOf(owners), owners, held, accounts0, done + {acc})
  {
    var cpf := person.cpf;
    ghost var clientsBefore := ClientsOf(banks, keys);
    ghost var countsBefore := CountsOf(banks, keys);
    ghost var accountsBefore := AccountsOf(owners);
    assert b.clients == clients0[acc];
    assert b.Holds(cpf) <==> acc in held by {
      if cpf in b.clients {
        var r := b.clients[cpf];
        assert r in owners;
        assert acc !in DroppedFrom(held, r) * done;
      }
    }
    ghost var registered: Person? := if cpf in b.clients then b.clients[cpf] else null;
    assert acc in held ==> held[acc] == registered;
    CloseOne(banks, keys, person, acc, b, registered, owners);
    assert forall q | q in owners && q != registered :: q.accounts == accountsBefore[q];
    ClientsStep(clientsBefore, ClientsOf(banks, keys), keys, cpf, held, clients0, done, acc);
    CountsStep(countsBefore, CountsOf(banks, keys), keys, held, counts0, done, acc);
    AccountsStep(accountsBefore, AccountsOf(owners), owners, held, accounts0, done, acc);
  }
}
