/**
 * The in-memory store of users and expenses (class MemStorage).
 *
 * Each JavaScript `Map` is modelled as a Dafny `map` from identifier to
 * record together with the sequence of its keys in insertion order, which is
 * the order in which `Map.prototype.values()` yields them.
 */
module Storage {
  import opened Wrappers
  import opened Schema

  /** The error `createUser` raises for an email that is already stored. */
  const DuplicateEmail: string := "User with this email already exists"

  /** `order` lists every key of `m` exactly once: the insertion order of a JavaScript Map. */
  ghost predicate OrderOf<V>(m: map<string, V>, order: seq<string>) {
    && (forall i, j :: 0 <= i < j < |order| ==> order[i] != order[j])
    && (forall k :: k in m <==> k in order)
  }

  /** The values of `m` in the order given by `order` (`Array.from(m.values())`). */
  function ValuesInOrder<V>(m: map<string, V>, order: seq<string>): seq<V>
    requires forall k :: k in order ==> k in m
  {
    seq(|order|, i requires 0 <= i < |order| => m[order[i]])
  }

  /** With `order` an insertion order of `m`, the listed values are exactly the stored ones. */
  lemma ValuesInOrderAreStored<V>(m: map<string, V>, order: seq<string>, v: V)
    requires OrderOf(m, order)
    ensures v in ValuesInOrder(m, order) <==> v in m.Values
  {
    var vs := ValuesInOrder(m, order);
    if v in m.Values {
      var k :| k in m && m[k] == v;
      var i :| 0 <= i < |order| && order[i] == k;
      assert vs[i] == v;
    }
  }

  /** The length of the longest identifier in `keys`. */
  function LongestLength(keys: seq<string>): (n: nat)
    ensures forall i :: 0 <= i < |keys| ==> |keys[i]| <= n
  {
    if keys == [] then 0
    else
      var rest := LongestLength(keys[1..]);
      assert forall i :: 1 <= i < |keys| ==> keys[i] == keys[1..][i - 1];
      if |keys[0]| > rest then |keys[0]| else rest
  }

  /**
   * Stands in for `randomUUID()`: an identifier that is none of `taken`
   * (it is longer than every one of them).
   */
  function FreshId(taken: seq<string>): (id: string)
    ensures id !in taken
  {
    seq(LongestLength(taken) + 1, _ => '0')
  }

  /** `Array.prototype.find` over users by exact email match: the first user whose email is `email`. */
  function FindByEmail(s: seq<User>, email: string): (r: Option<User>)
    ensures r.None? <==> forall i :: 0 <= i < |s| ==> s[i].email != email
    ensures r.Some? ==> exists i :: 0 <= i < |s| && s[i] == r.value && s[i].email == email &&
                                    forall j :: 0 <= j < i ==> s[j].email != email
  {
    if s == [] then None
    else if s[0].email == email then Some(s[0])
    else
      var r := FindByEmail(s[1..], email);
      assert forall i :: 1 <= i < |s| ==> s[i] == s[1..][i - 1];
      if r.Some? then
        var i :| 0 <= i < |s[1..]| && s[1..][i] == r.value && s[1..][i].email == email &&
                 forall j :: 0 <= j < i ==> s[1..][j].email != email;
        assert s[i + 1] == r.value;
        r
      else r
  }

  /** The expenses of `s` owned by `userId`, in the order of `s` (the `filter` step). */
  function OwnedBy(s: seq<Expense>, userId: string): (r: seq<Expense>)
    ensures forall e :: e in r <==> e in s && e.userId == userId
    ensures DistinctIds(s) ==> DistinctIds(r)
  {
    if s == [] then []
    else
      var rest := OwnedBy(s[1..], userId);
      assert forall e :: e in s[1..] ==> e in s;
      if s[0].userId == userId then [s[0]] + rest else rest
  }

  /** No two records share an identifier, so no stored expense is listed twice. */
  ghost predicate DistinctIds(s: seq<Expense>) {
    forall i, j :: 0 <= i < j < |s| ==> s[i].id != s[j].id
  }

  /** Ordered by non-increasing creation time: the newest expense comes first. */
  ghost predicate NewestFirst(s: seq<Expense>) {
    forall i, j :: 0 <= i < j < |s| ==> s[i].createdAt >= s[j].createdAt
  }

  /**
   * Inserts `e` into a newest-first list in front of the first element that is
   * not newer than it, so that `e` precedes the later input elements it ties
   * with: one step of the stable sort with comparator `b.createdAt - a.createdAt`.
   */
  function InsertNewestFirst(e: Expense, s: seq<Expense>): (r: seq<Expense>)
    requires NewestFirst(s)
    ensures NewestFirst(r)
    ensures multiset(r) == multiset(s) + multiset{e}
  {
    if s == [] || s[0].createdAt <= e.createdAt then [e] + s
    else
      TailKeeps(s);
      var rest := InsertNewestFirst(e, s[1..]);
      assert s == [s[0]] + s[1..];
      var r := [s[0]] + rest;
      HeadBeforeInsert(e, s, rest);
      r
  }

  /** The older head of a newest-first list stays in front of the rest with `e` inserted. */
  lemma HeadBeforeInsert(e: Expense, s: seq<Expense>, rest: seq<Expense>)
    requires s != [] && NewestFirst(s) && s[0].createdAt > e.createdAt
    requires NewestFirst(rest) && multiset(rest) == multiset(s[1..]) + multiset{e}
    ensures NewestFirst([s[0]] + rest)
  {
    var r := [s[0]] + rest;
    forall j | 0 <= j < |rest| ensures s[0].createdAt >= rest[j].createdAt {
      assert rest[j] in multiset(s[1..]) + multiset{e};
      if rest[j] != e {
        var k :| 0 <= k < |s[1..]| && s[1..][k] == rest[j];
        assert s[k + 1] == rest[j];
      }
    }
    forall i, j | 0 <= i < j < |r| ensures r[i].createdAt >= r[j].createdAt {
      assert r[j] == rest[j - 1];
      if i > 0 { assert r[i] == rest[i - 1]; }
    }
  }

  /** The stable newest-first sort of `getExpensesByUserId`. */
  function SortNewestFirst(s: seq<Expense>): (r: seq<Expense>)
    ensures NewestFirst(r)
    ensures multiset(r) == multiset(s)
  {
    if s == [] then []
    else
      assert s == [s[0]] + s[1..];
      InsertNewestFirst(s[0], SortNewestFirst(s[1..]))
  }

  /** Dropping the first element keeps a list newest-first and its identifiers distinct. */
  lemma TailKeeps(s: seq<Expense>)
    requires s != []
    ensures NewestFirst(s) ==> NewestFirst(s[1..])
    ensures DistinctIds(s) ==> DistinctIds(s[1..])
    ensures forall x :: x in s[1..] ==> x in s
  {
  }

  lemma {:induction false} InsertKeepsDistinctIds(e: Expense, s: seq<Expense>)
    requires NewestFirst(s) && DistinctIds(s)
    requires forall x :: x in s ==> x.id != e.id
    ensures DistinctIds(InsertNewestFirst(e, s))
  {
    var r := InsertNewestFirst(e, s);
    if s == [] || s[0].createdAt <= e.createdAt {
      forall i, j | 0 <= i < j < |r| ensures r[i].id != r[j].id {
        assert r[j] == s[j - 1];
        if i > 0 { assert r[i] == s[i - 1]; }
      }
    } else {
      TailKeeps(s);
      var rest := InsertNewestFirst(e, s[1..]);
      InsertKeepsDistinctIds(e, s[1..]);
      assert r == [s[0]] + rest;
      forall i, j | 0 <= i < j < |r| ensures r[i].id != r[j].id {
        assert r[j] == rest[j - 1];
        if i > 0 {
          assert r[i] == rest[i - 1];
        } else {
          assert rest[j - 1] in multiset(s[1..]) + multiset{e};
          if rest[j - 1] != e {
            var k :| 0 <= k < |s[1..]| && s[1..][k] == rest[j - 1];
            assert s[k + 1] == rest[j - 1];
          }
        }
      }
    }
  }

  /** Sorting a list whose identifiers are distinct keeps them distinct. */
  lemma {:induction false} SortKeepsDistinctIds(s: seq<Expense>)
    requires DistinctIds(s)
    ensures DistinctIds(SortNewestFirst(s))
  {
    if s != [] {
      TailKeeps(s);
      SortKeepsDistinctIds(s[1..]);
      var rest := SortNewestFirst(s[1..]);
      forall x | x in rest ensures x.id != s[0].id {
        assert x in multiset(s[1..]);
        var k :| 0 <= k < |s[1..]| && s[1..][k] == x;
        assert s[k + 1] == x;
      }
      InsertKeepsDistinctIds(s[0], rest);
    }
  }

  /** The expenses of `s` created at time `t`, in the order of `s`. */
  function CreatedAt(s: seq<Expense>, t: Timestamp): (r: seq<Expense>)
    ensures forall e :: e in r ==> e in s && e.createdAt == t
  {
    if s == [] then []
    else if s[0].createdAt == t then [s[0]] + CreatedAt(s[1..], t)
    else CreatedAt(s[1..], t)
  }

  lemma {:induction false} InsertKeepsOrderOfTies(e: Expense, s: seq<Expense>, t: Timestamp)
    requires NewestFirst(s)
    ensures CreatedAt(InsertNewestFirst(e, s), t) ==
            (if e.createdAt == t then [e] else []) + CreatedAt(s, t)
  {
    if s == [] || s[0].createdAt <= e.createdAt {
      assert ([e] + s)[1..] == s;
    } else {
      var rest := InsertNewestFirst(e, s[1..]);
      assert ([s[0]] + rest)[1..] == rest;
      InsertKeepsOrderOfTies(e, s[1..], t);
    }
  }

  /**
   * The sort is stable: the expenses created at the same instant keep the
   * order they had in the input.
   */
  lemma {:induction false} SortKeepsOrderOfTies(s: seq<Expense>, t: Timestamp)
    ensures CreatedAt(SortNewestFirst(s), t) == CreatedAt(s, t)
  {
    if s != [] {
      SortKeepsOrderOfTies(s[1..], t);
      InsertKeepsOrderOfTies(s[0], SortNewestFirst(s[1..]), t);
    }
  }

  class MemStorage {
    var users: map<string, User>
    var userOrder: seq<string>
    var expenses: map<string, Expense>
    var expenseOrder: seq<string>

    /** No two stored users share an email address. */
    ghost predicate UniqueEmails()
      reads this
    {
      forall a, b :: a in users && b in users && users[a].email == users[b].email ==> a == b
    }

    /** The store's invariant: both key orders match their maps, records sit under their own id, emails are unique. */
    ghost predicate Valid()
      reads this
    {
      && OrderOf(users, userOrder)
      && (forall k :: k in users ==> users[k].id == k)
      && UniqueEmails()
      && OrderOf(expenses, expenseOrder)
      && (forall k :: k in expenses ==> expenses[k].id == k)
    }

    /** Some stored user has exactly this email. */
    ghost predicate EmailTaken(email: string)
      reads this
    {
      exists k :: k in users && users[k].email == email
    }

    constructor ()
      ensures Valid()
      ensures users == map[] && userOrder == []
      ensures expenses == map[] && expenseOrder == []
    {
      users, userOrder := map[], [];
      expenses, expenseOrder := map[], [];
    }

    /** The user stored under `id`, if any. */
    function GetUser(id: string): (r: Option<User>)
      reads this
      ensures r.Some? <==> id in users
      ensures r.Some? ==> r.value == users[id]
      ensures Valid() && r.Some? ==> r.value.id == id
    {
      if id in users then Some(users[id]) else None
    }

    /**
     * The first user, in insertion order, whose email equals `email` exactly;
     * absent iff there is none. Under the invariant it is the only one.
     */
    function GetUserByEmail(email: string): (r: Option<User>)
      reads this
      requires Valid()
      ensures r.None? <==> !EmailTaken(email)
      ensures r.Some? ==> r.value.email == email && r.value.id in users && users[r.value.id] == r.value
      ensures forall k :: k in users && users[k].email == email ==> r == Some(users[k])
    {
      var vs := ValuesInOrder(users, userOrder);
      var r := FindByEmail(vs, email);
      assert r.None? <==> !EmailTaken(email) by {
        if EmailTaken(email) {
          var k :| k in users && users[k].email == email;
          var i :| 0 <= i < |userOrder| && userOrder[i] == k;
          assert vs[i].email == email;
        }
      }
      r
    }

    /**
     * Rejects an email that is already stored; otherwise stores a user with a
     * fresh id, the given email and password, and the clock reading `now`.
     */
    method CreateUser(data: InsertUser, now: Timestamp) returns (r: Result<User, string>)
      requires Valid()
      modifies this
      ensures Valid()
      ensures expenses == old(expenses) && expenseOrder == old(expenseOrder)
      ensures old(EmailTaken(data.email)) ==>
        r == Failure(DuplicateEmail) && users == old(users) && userOrder == old(userOrder)
      ensures !old(EmailTaken(data.email)) ==>
        && r.Success?
        && r.value == User(r.value.id, data.email, data.password, now)
        && r.value.id !in old(users)
        && users == old(users)[r.value.id := r.value]
        && userOrder == old(userOrder) + [r.value.id]
    {
      var existing := GetUserByEmail(data.email);
      if existing.Some? {
        return Failure(DuplicateEmail);
      }
      var id := FreshId(userOrder);
      var user := User(id, data.email, data.password, now);
      users := users[id := user];
      userOrder := userOrder + [id];
      r := Success(user);
    }

    /**
     * The expenses owned by `userId`: each stored one exactly once, nothing
     * else, newest `createdAt` first.
     */
    function GetExpensesByUserId(userId: string): (r: seq<Expense>)
      reads this
      requires Valid()
      ensures forall e :: e in r <==> e in expenses.Values && e.userId == userId
      ensures DistinctIds(r)
      ensures NewestFirst(r)
    {
      var vs := ValuesInOrder(expenses, expenseOrder);
      assert forall e :: e in vs <==> e in expenses.Values by {
        forall e ensures e in vs <==> e in expenses.Values {
          ValuesInOrderAreStored(expenses, expenseOrder, e);
        }
      }
      assert DistinctIds(vs) by {
        forall i, j | 0 <= i < j < |vs| ensures vs[i].id != vs[j].id {
          assert vs[i].id == expenseOrder[i] && vs[j].id == expenseOrder[j];
        }
      }
      var owned := OwnedBy(vs, userId);
      var r := SortNewestFirst(owned);
      SortKeepsDistinctIds(owned);
      assert forall e :: e in r <==> e in owned by {
        forall e ensures e in r <==> e in owned {
          assert e in r <==> e in multiset(r);
        }
      }
      r
    }

    /** Always succeeds: stores the expense under a fresh id, owned by `userId`, created at `now`. */
    method CreateExpense(data: InsertExpense, userId: string, now: Timestamp) returns (e: Expense)
      requires Valid()
      modifies this
      ensures Valid()
      ensures users == old(users) && userOrder == old(userOrder)
      ensures e == Expense(e.id, userId, data.amount, data.category, data.date, data.note, now)
      ensures e.id !in old(expenses)
      ensures expenses == old(expenses)[e.id := e]
      ensures expenseOrder == old(expenseOrder) + [e.id]
    {
      var id := FreshId(expenseOrder);
      e := Expense(id, userId, data.amount, data.category, data.date, data.note, now);
      expenses := expenses[id := e];
      expenseOrder := expenseOrder + [id];
    }
  }
}
