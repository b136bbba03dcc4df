/** The data layer: a store holding the one account balance. */
module DataLayer {

  /** 1000.00, the balance a fresh store holds, in cents. */
  const InitialBalance: int := 100000

  class DataProgram {
    /** The balance in cents; nothing bounds it. */
    var storageBalance: int

    constructor()
      ensures storageBalance == InitialBalance
    {
      storageBalance := InitialBalance;
    }

    /** Returns the stored balance and changes nothing. */
    method Read() returns (balance: int)
      ensures balance == storageBalance
    {
      balance := storageBalance;
    }

    /** Replaces the stored balance, whatever it is. */
    method Write(balance: int)
      modifies this
      ensures storageBalance == balance
    {
      storageBalance := balance;
    }
  }

  /** A write followed by two reads: both reads see what was written. */
  method WriteThenReadTwice(store: DataProgram, balance: int) returns (first: int, second: int)
    modifies store
    ensures first == balance && second == balance
    ensures store.storageBalance == balance
  {
    store.Write(balance);
    first := store.Read();
    second := store.Read();
  }

  /** A fresh store reads 1000.00. */
  method FreshStoreRead() returns (balance: int)
    ensures balance == 100000
  {
    var store := new DataProgram();
    balance := store.Read();
  }
}
