/**
 * The hand-written iterator `AccountLevelIterator`: it walks the accounts
 * found at one level of an account tree (the root is level 1), in
 * left-to-right order, by flattening the tree into an array and stepping a
 * cursor through it.  `AtLevel` wraps it as a sequence.
 */
module AccountIterator {
  import opened Seqs
  import opened Outcomes

  /** An account: a balance (a C# `decimal`, here an exact real) and its sub-accounts. */
  datatype Account = Account(balance: real, subAccounts: seq<Account>)

  /**
   * `Flatten(account, currentLevel)` of the iterator with target `level`:
   * the account itself when the target is 1, its sub-accounts when they are
   * at the target level, and otherwise the flattenings of the sub-accounts
   * one level deeper, concatenated.
   */
  function Flatten(account: Account, level: int, currentLevel: int): seq<Account>
    decreases account
  {
    if level == 1 then [account]
    else if currentLevel + 1 == level then account.subAccounts
    else FlattenAll(account.subAccounts, level, currentLevel + 1)
  }

  /** `SelectMany(a => Flatten(a, currentLevel))` over `accounts`. */
  function FlattenAll(accounts: seq<Account>, level: int, currentLevel: int): seq<Account>
    decreases accounts
  {
    if accounts == [] then []
    else Flatten(accounts[0], level, currentLevel) + FlattenAll(accounts[1..], level, currentLevel)
  }

  /** Reference definition: the descendants exactly `depth` levels down, the account itself being at depth 1. */
  function AtDepth(account: Account, depth: int): seq<Account>
    decreases account
  {
    if depth == 1 then [account]
    else if depth < 1 then []
    else AtDepthAll(account.subAccounts, depth - 1)
  }

  /** The accounts `depth` levels down from each of `accounts`, left to right. */
  function AtDepthAll(accounts: seq<Account>, depth: int): seq<Account>
    decreases accounts
  {
    if accounts == [] then []
    else AtDepth(accounts[0], depth) + AtDepthAll(accounts[1..], depth)
  }

  /** `FirstOrDefault`. */
  function First(s: seq<Account>): Option<Account> {
    if s == [] then None else Some(s[0])
  }

  function Balances(s: seq<Account>): (r: seq<real>)
    ensures |r| == |s| && forall i :: 0 <= i < |s| ==> r[i] == s[i].balance
  {
    seq(|s|, i requires 0 <= i < |s| => s[i].balance)
  }

  /** At depth 1, a list of accounts yields the list itself. */
  lemma {:induction false} AtDepthOneIsTheList(accounts: seq<Account>)
    ensures AtDepthAll(accounts, 1) == accounts
  {
    if accounts != [] {
      AtDepthOneIsTheList(accounts[1..]);
      assert accounts == [accounts[0]] + accounts[1..];
    }
  }

  /** Below the target level, flattening yields the descendants at the target depth. */
  lemma {:induction false} FlattenIsAtDepth(account: Account, level: int, currentLevel: int)
    requires level != 1 && currentLevel < level
    ensures Flatten(account, level, currentLevel) == AtDepth(account, level - currentLevel + 1)
    decreases account, 1
  {
    if currentLevel + 1 == level {
      AtDepthOneIsTheList(account.subAccounts);
    } else {
      FlattenAllIsAtDepthAll(account.subAccounts, level, currentLevel + 1);
    }
  }

  lemma {:induction false} FlattenAllIsAtDepthAll(accounts: seq<Account>, level: int, currentLevel: int)
    requires level != 1 && currentLevel < level
    ensures FlattenAll(accounts, level, currentLevel) == AtDepthAll(accounts, level - currentLevel + 1)
    decreases accounts, 0
  {
    if accounts != [] {
      FlattenIsAtDepth(accounts[0], level, currentLevel);
      FlattenAllIsAtDepthAll(accounts[1..], level, currentLevel);
    }
  }

  /** Once the walk has passed the target level it finds nothing: a level of 0 or less yields no account. */
  lemma {:induction false} FlattenPastLevelIsEmpty(account: Account, level: int, currentLevel: int)
    requires level != 1 && level <= currentLevel
    ensures Flatten(account, level, currentLevel) == []
    decreases account, 1
  {
    FlattenAllPastLevelIsEmpty(account.subAccounts, level, currentLevel + 1);
  }

  lemma {:induction false} FlattenAllPastLevelIsEmpty(accounts: seq<Account>, level: int, currentLevel: int)
    requires level != 1 && level <= currentLevel
    ensures FlattenAll(accounts, level, currentLevel) == []
    decreases accounts, 0
  {
    if accounts != [] {
      FlattenPastLevelIsEmpty(accounts[0], level, currentLevel);
      FlattenAllPastLevelIsEmpty(accounts[1..], level, currentLevel);
    }
  }

  /**
   * What the iterator enumerates for each target level: the root alone for
   * level 1, nothing for a level below 1, and otherwise every account at
   * that depth, left to right.
   */
  lemma LevelContents(root: Account, level: int)
    ensures level == 1 ==> Flatten(root, level, 1) == [root]
    ensures level == 2 ==> Flatten(root, level, 1) == root.subAccounts
    ensures level < 1 ==> Flatten(root, level, 1) == []
    ensures level >= 2 ==> Flatten(root, level, 1) == AtDepth(root, level)
  {
    if level < 1 {
      FlattenPastLevelIsEmpty(root, level, 1);
    } else if level >= 2 {
      FlattenIsAtDepth(root, level, 1);
    }
  }

  class AccountLevelIterator {
    const root: Account
    const level: int
    var flattened: seq<Account>
    var index: nat
    var current: Option<Account>

    /** The constructor flattens once through `Reset`, leaving the cursor at 0. */
    constructor(root: Account, level: int)
      ensures this.root == root && this.level == level
      ensures flattened == Flatten(root, level, 1) && index == 0
      ensures current == First(flattened)
    {
      this.root := root;
      this.level := level;
      index := 0;
      new;
      Reset();
    }

    /** Steps to the next flattened account, or reports the end leaving everything as it was. */
    method MoveNext() returns (moved: bool)
      modifies this`index, this`current
      ensures moved <==> old(index) < |flattened|
      ensures moved ==> current == Some(flattened[old(index)]) && index == old(index) + 1
      ensures !moved ==> current == old(current) && index == old(index)
    {
      if index < |flattened| {
        current := Some(flattened[index]);
        index := index + 1;
        return true;
      }
      return false;
    }

    /** Rebuilds the flattened accounts and `Current`, but leaves the cursor where it was. */
    method Reset()
      modifies this`flattened, this`current
      ensures flattened == Flatten(root, level, 1)
      ensures current == First(flattened)
    {
      flattened := Flatten(root, level, 1);
      current := First(flattened);
    }
  }

  /** `AtLevel`: everything a fresh iterator steps through, in order. */
  method AtLevel(account: Account, level: int) returns (accounts: seq<Account>)
    ensures accounts == Flatten(account, level, 1)
  {
    var walker := new AccountLevelIterator(account, level);
    accounts := [];
    var more := walker.MoveNext();
    while more
      invariant walker.flattened == Flatten(account, level, 1)
      invariant walker.index <= |walker.flattened|
      invariant more ==> walker.index >= 1 && walker.current == Some(walker.flattened[walker.index - 1])
      invariant accounts == walker.flattened[..if more then walker.index - 1 else walker.index]
      invariant !more ==> walker.index == |walker.flattened|
      decreases |walker.flattened| - walker.index, more
    {
      if walker.current.Some? {
        accounts := accounts + [walker.current.value];
      }
      more := walker.MoveNext();
    }
  }

  /** The test's tree: a master account with three sub-accounts, two of which have their own. */
  const Master := Account(1000000.0, [
    Account(500.0, []),
    Account(900.0, [Account(50.0, []), Account(90.0, [])]),
    Account(1200.0, [Account(1800.0, [])])])

  /** The test tree's level-3 accounts: the children of the second and third sub-accounts. */
  lemma MasterLevelThree()
    ensures Flatten(Master, 3, 1) == [Account(50.0, []), Account(90.0, []), Account(1800.0, [])]
  {
    LevelContents(Master, 3);
    LevelContents(Master.subAccounts[1], 2);
    LevelContents(Master.subAccounts[2], 2);
    assert Master.subAccounts[1..][1..][1..] == [];
  }

  /** The balances of the test tree's level-3 accounts add up to 1940. */
  lemma MasterLevelThreeSum()
    ensures Sum(Balances([Account(50.0, []), Account(90.0, []), Account(1800.0, [])])) == 1940.0
  {
    var b := Balances([Account(50.0, []), Account(90.0, []), Account(1800.0, [])]);
    assert b == [50.0, 90.0, 1800.0];
    assert b[1..][1..] == [1800.0] && Sum([1800.0]) == 1800.0;
    assert Sum(b[1..]) == 1890.0;
  }

  /** The test's `AtLevel(3)` sum: 1940 again. */
  method AtLevelThreeTotal() returns (totalBalance: real)
    ensures totalBalance == 1940.0
  {
    var accounts := AtLevel(Master, 3);
    MasterLevelThree();
    MasterLevelThreeSum();
    totalBalance := Sum(Balances(accounts));
  }

  /**
   * The test's loop `while (iterator.MoveNext()) total += iterator.Current.Balance`
   * on a fresh iterator: the sum of the balances of everything it yields.
   */
  method TotalBalance(walker: AccountLevelIterator) returns (totalBalance: real)
    requires walker.index == 0
    modifies walker`index, walker`current
    ensures totalBalance == Sum(Balances(walker.flattened))
  {
    totalBalance := 0.0;
    var more := walker.MoveNext();
    while more
      invariant walker.index <= |walker.flattened|
      invariant more ==> walker.index >= 1 && walker.current == Some(walker.flattened[walker.index - 1])
      invariant totalBalance == Sum(Balances(walker.flattened[..if more then walker.index - 1 else walker.index]))
      invariant !more ==> walker.index == |walker.flattened|
      decreases |walker.flattened| - walker.index, more
    {
      if walker.current.Some? {
        var k := walker.index - 1;
        assert Balances(walker.flattened[..k + 1]) == Balances(walker.flattened[..k]) + [walker.current.value.balance];
        SumAppend(Balances(walker.flattened[..k]), [walker.current.value.balance]);
        totalBalance := totalBalance + walker.current.value.balance;
      }
      more := walker.MoveNext();
    }
    assert walker.flattened[..|walker.flattened|] == walker.flattened;
  }

  /** The test's first loop: summing the balances the iterator yields at level 3 gives 1940. */
  method LevelThreeTotal() returns (totalBalance: real)
    ensures totalBalance == 1940.0
  {
    var walker := new AccountLevelIterator(Master, 3);
    totalBalance := TotalBalance(walker);
    MasterLevelThree();
    MasterLevelThreeSum();
  }
}
