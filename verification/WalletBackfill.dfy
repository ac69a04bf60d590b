/**
 * The one-off script that gives every customer with a balance a wallet
 * (scripts/backfill-customer-wallets.js). Amounts are in paise; a drift of more than one
 * paisa is reported.
 */
module WalletBackfill {

  datatype User = User(id: nat, balance: int)

  datatype Wallet = Wallet(available: int, credited: int, migrated: bool)

  datatype Stats = Stats(processed: nat, created: nat, existed: nat, mismatches: seq<nat>)

  const NO_STATS := Stats(0, 0, 0, [])

  function Opening(u: User): Wallet {
    Wallet(u.balance, u.balance, true)
  }

  predicate Drifts(u: User, w: Wallet) {
    u.balance - w.available > 1 || w.available - u.balance > 1
  }

  /** The query: all users, or those with money. */
  function Selected(users: seq<User>, includeZero: bool): seq<User> {
    if users == [] then []
    else if includeZero || users[0].balance > 0 then [users[0]] + Selected(users[1..], includeZero)
    else Selected(users[1..], includeZero)
  }

  function Filled(wallets: map<nat, Wallet>, users: seq<User>): map<nat, Wallet>
    decreases |users|
  {
    if users == [] then wallets else Filled(Opened(wallets, users[0]), users[1..])
  }

  function Opened(wallets: map<nat, Wallet>, u: User): map<nat, Wallet> {
    if u.id in wallets then wallets else wallets[u.id := Opening(u)]
  }

  function Report(wallets: map<nat, Wallet>, u: User): seq<nat> {
    if u.id in wallets && Drifts(u, wallets[u.id]) then [u.id] else []
  }

  ghost predicate UniqueIds(users: seq<User>) {
    users != [] ==> (forall u :: u in users[1..] ==> u.id != users[0].id) && UniqueIds(users[1..])
  }

  /** No wallet that was there is altered; each selected user without one gets exactly one, with the user's balance. */
  lemma {:induction false} FilledExactly(wallets: map<nat, Wallet>, users: seq<User>)
    requires UniqueIds(users)
    ensures var after := Filled(wallets, users);
      && (forall id :: id in wallets ==> id in after && after[id] == wallets[id])
      && (forall u :: u in users && u.id !in wallets ==> u.id in after && after[u.id] == Opening(u))
      && (forall id :: id in after && id !in wallets ==> exists u :: u in users && u.id == id)
    decreases |users|
  {
    if users != [] {
      var next := Opened(wallets, users[0]);
      FilledExactly(next, users[1..]);
      assert users == [users[0]] + users[1..];
      forall id | id in Filled(wallets, users) && id !in wallets ensures exists u :: u in users && u.id == id {
        if id in next {
          assert users[0] in users;
        } else {
          var u :| u in users[1..] && u.id == id;
          assert u in users;
        }
      }
    }
  }

  /** Stopped after any number of users and run again, it ends with the wallets of one run. */
  lemma {:induction false} RestartReachesGoal(wallets: map<nat, Wallet>, users: seq<User>, n: nat)
    requires UniqueIds(users) && n <= |users|
    ensures Filled(Filled(wallets, users[..n]), users) == Filled(wallets, users)
  {
    PrefixUnique(users, n);
    var part := Filled(wallets, users[..n]);
    FilledExactly(wallets, users);
    FilledExactly(wallets, users[..n]);
    FilledExactly(part, users);
    var goal, reached := Filled(wallets, users), Filled(part, users);
    assert forall u :: u in users[..n] ==> u in users;
    forall id | id in goal ensures id in reached && reached[id] == goal[id] {
      if id !in wallets {
        var u :| u in users && u.id == id;
        if id in part {
          var v :| v in users[..n] && v.id == id;
          assert v in users && part[id] == Opening(v) && goal[id] == Opening(v);
        }
      }
    }
    forall id | id in reached ensures id in goal {
      if id !in wallets {
        if id in part {
          var v :| v in users[..n] && v.id == id;
          assert v in users;
        } else {
          var u :| u in users && u.id == id;
        }
      }
    }
  }

  lemma {:induction false} PrefixUnique(users: seq<User>, n: nat)
    requires UniqueIds(users) && n <= |users|
    ensures UniqueIds(users[..n])
  {
    if n > 0 {
      PrefixUnique(users[1..], n - 1);
      assert users[..n][1..] == users[1..][..n - 1];
    }
  }

  /** The users reported: those who already had a wallet, with another balance. */
  function Mismatched(wallets: map<nat, Wallet>, users: seq<User>): seq<nat>
    decreases |users|
  {
    if users == [] then [] else Report(wallets, users[0]) + Mismatched(Opened(wallets, users[0]), users[1..])
  }

  /** After a run, another run creates no wallet and reports the same users: a wallet it opened never drifts by itself. */
  lemma {:induction false} SecondRunReportsTheSame(wallets: map<nat, Wallet>, after: map<nat, Wallet>, users: seq<User>)
    requires UniqueIds(users)
    requires forall id :: id in wallets ==> id in after && after[id] == wallets[id]
    requires forall u :: u in users ==> u.id in after && (u.id !in wallets ==> after[u.id] == Opening(u))
    ensures Filled(after, users) == after
    ensures Mismatched(after, users) == Mismatched(wallets, users)
    decreases |users|
  {
    if users != [] {
      var u := users[0];
      assert u in users;
      assert forall v :: v in users[1..] ==> v in users;
      SecondRunReportsTheSame(Opened(wallets, u), after, users[1..]);
    }
  }

  class Script {
    var wallets: map<nat, Wallet>

    constructor (wallets: map<nat, Wallet>)
      ensures this.wallets == wallets
    {
      this.wallets := wallets;
    }

    method One(user: User, before: Stats) returns (stats: Stats)
      modifies this
      ensures wallets == Opened(old(wallets), user)
      ensures stats.mismatches == before.mismatches + Report(old(wallets), user)
      ensures stats.processed == before.processed + 1
      ensures if user.id in old(wallets)
              then stats.existed == before.existed + 1 && stats.created == before.created
              else stats.existed == before.existed && stats.created == before.created + 1
      ensures |wallets.Keys| - |old(wallets).Keys| == stats.created - before.created
    {
      stats := before.(processed := before.processed + 1);
      if user.id in wallets {
        stats := stats.(existed := stats.existed + 1);
        if Drifts(user, wallets[user.id]) { stats := stats.(mismatches := stats.mismatches + [user.id]); }
      } else {
        assert wallets[user.id := Opening(user)].Keys == wallets.Keys + {user.id};
        wallets := wallets[user.id := Opening(user)];
        stats := stats.(created := stats.created + 1);
      }
    }

    /** The cursor loop of main. */
    method Backfill(users: seq<User>, includeZero: bool) returns (stats: Stats)
      modifies this
      ensures wallets == Filled(old(wallets), Selected(users, includeZero))
      ensures stats.processed == |Selected(users, includeZero)| == stats.created + stats.existed
      ensures stats.created == |wallets.Keys| - |old(wallets).Keys|
      ensures stats.mismatches == Mismatched(old(wallets), Selected(users, includeZero))
    {
      hide Report, Opened, Selected;
      var cursor := Selected(users, includeZero);
      stats := NO_STATS;
      var i := 0;
      while i < |cursor|
        invariant 0 <= i <= |cursor|
        invariant Filled(wallets, cursor[i..]) == Filled(old(wallets), cursor)
        invariant stats.mismatches + Mismatched(wallets, cursor[i..]) == Mismatched(old(wallets), cursor)
        invariant stats.processed == i == stats.created + stats.existed
        invariant stats.created == |wallets.Keys| - |old(wallets).Keys|
      {
        assert cursor[i..][1..] == cursor[i + 1..];
        stats := One(cursor[i], stats);
        i := i + 1;
      }
    }
  }
}
