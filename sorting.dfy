/** The two list orderings of the application: admin accounts by bank name
    (`a.bankName.localeCompare(b.bankName)`, public/main.js and
    src/app/page.tsx) and transaction history newest first
    (src/app/page.tsx).

    `Array.prototype.sort` is modelled as a stable insertion sort over a
    comparison `le` ("a may come before b"); the bank-name collation is
    modelled as lexicographic order on code points. */
module Sorting {
  import opened Types

  /** Lexicographic order on strings, character by character. */
  predicate StrLe(a: string, b: string)
    decreases |a|
  {
    |a| == 0 || (|b| > 0 && (a[0] < b[0] || (a[0] == b[0] && StrLe(a[1..], b[1..]))))
  }

  lemma {:induction false} StrLeTotal(a: string, b: string)
    ensures StrLe(a, b) || StrLe(b, a)
    decreases |a|
  {
    if |a| > 0 && |b| > 0 && a[0] == b[0] {
      StrLeTotal(a[1..], b[1..]);
    }
  }

  lemma {:induction false} StrLeTransitive(a: string, b: string, c: string)
    requires StrLe(a, b) && StrLe(b, c)
    ensures StrLe(a, c)
    decreases |a|
  {
    if |a| > 0 && a[0] == b[0] && b[0] == c[0] {
      StrLeTransitive(a[1..], b[1..], c[1..]);
    }
  }

  /** `le` orders every pair and is transitive. */
  ghost predicate TotalPreorder<T(!new)>(le: (T, T) -> bool)
  {
    && (forall a, b :: le(a, b) || le(b, a))
    && (forall a, b, c :: le(a, b) && le(b, c) ==> le(a, c))
  }

  predicate SortedBy<T>(s: seq<T>, le: (T, T) -> bool)
  {
    forall i, j :: 0 <= i < j < |s| ==> le(s[i], s[j])
  }

  /** Inserts `x` before the first element it may precede. */
  function Insert<T>(x: T, s: seq<T>, le: (T, T) -> bool): seq<T>
  {
    if |s| == 0 then [x]
    else if le(x, s[0]) then [x] + s
    else [s[0]] + Insert(x, s[1..], le)
  }

  /** Insertion sort; an element is kept ahead of the equal ones after it. */
  function SortBy<T>(s: seq<T>, le: (T, T) -> bool): seq<T>
  {
    if |s| == 0 then [] else Insert(s[0], SortBy(s[1..], le), le)
  }

  lemma {:induction false} InsertPermutes<T>(x: T, s: seq<T>, le: (T, T) -> bool)
    ensures multiset(Insert(x, s, le)) == multiset{x} + multiset(s)
  {
    if |s| > 0 && !le(x, s[0]) {
      InsertPermutes(x, s[1..], le);
      assert s == [s[0]] + s[1..];
    }
  }

  lemma {:induction false} InsertSorted<T(!new)>(x: T, s: seq<T>, le: (T, T) -> bool)
    requires TotalPreorder(le) && SortedBy(s, le)
    ensures SortedBy(Insert(x, s, le), le)
  {
    if |s| == 0 {
    } else if le(x, s[0]) {
      var r := [x] + s;
      forall i, j | 0 <= i < j < |r|
        ensures le(r[i], r[j])
      {
        if i == 0 && j > 1 {
          assert le(s[0], s[j - 1]);
        }
      }
    } else {
      var t := Insert(x, s[1..], le);
      InsertSorted(x, s[1..], le);
      InsertPermutes(x, s[1..], le);
      assert le(s[0], x);
      var r := [s[0]] + t;
      forall i, j | 0 <= i < j < |r|
        ensures le(r[i], r[j])
      {
        if i == 0 {
          var y := r[j];
          assert y in multiset(t);
          assert y == x || y in multiset(s[1..]);
          if y != x {
            var k :| 1 <= k < |s| && s[k] == y;
          }
        }
      }
    }
  }

  lemma {:induction false} SortPermutes<T>(s: seq<T>, le: (T, T) -> bool)
    ensures multiset(SortBy(s, le)) == multiset(s)
  {
    if |s| > 0 {
      SortPermutes(s[1..], le);
      InsertPermutes(s[0], SortBy(s[1..], le), le);
      assert s == [s[0]] + s[1..];
    }
  }

  lemma {:induction false} SortSorted<T(!new)>(s: seq<T>, le: (T, T) -> bool)
    requires TotalPreorder(le)
    ensures SortedBy(SortBy(s, le), le)
  {
    if |s| > 0 {
      SortSorted(s[1..], le);
      InsertSorted(s[0], SortBy(s[1..], le), le);
    }
  }

  /** `a.bankName.localeCompare(b.bankName) <= 0`. */
  predicate ByBankName(a: AdminAccount, b: AdminAccount)
  {
    StrLe(a.bankName, b.bankName)
  }

  lemma ByBankNameTotalPreorder()
    ensures TotalPreorder(ByBankName)
  {
    forall a: AdminAccount, b: AdminAccount
      ensures ByBankName(a, b) || ByBankName(b, a)
    {
      StrLeTotal(a.bankName, b.bankName);
    }
    forall a: AdminAccount, b: AdminAccount, c: AdminAccount | ByBankName(a, b) && ByBankName(b, c)
      ensures ByBankName(a, c)
    {
      StrLeTransitive(a.bankName, b.bankName, c.bankName);
    }
  }

  /** The account list after `sort` by bank name: the same accounts, in
      non-decreasing bank-name order. */
  lemma AccountsSortedByBankName(accounts: seq<AdminAccount>)
    ensures multiset(SortBy(accounts, ByBankName)) == multiset(accounts)
    ensures forall i, j :: 0 <= i < j < |SortBy(accounts, ByBankName)| ==>
      StrLe(SortBy(accounts, ByBankName)[i].bankName, SortBy(accounts, ByBankName)[j].bankName)
  {
    ByBankNameTotalPreorder();
    SortSorted(accounts, ByBankName);
    SortPermutes(accounts, ByBankName);
  }

  /** `b.timestamp.getTime() - a.timestamp.getTime() <= 0`. */
  predicate NewestFirst(a: Transaction, b: Transaction)
  {
    a.timestamp >= b.timestamp
  }

  lemma NewestFirstTotalPreorder()
    ensures TotalPreorder(NewestFirst)
  {
  }

  /** The history after `sort`: the same transactions, newest first. */
  lemma HistoryNewestFirst(history: seq<Transaction>)
    ensures multiset(SortBy(history, NewestFirst)) == multiset(history)
    ensures forall i, j :: 0 <= i < j < |SortBy(history, NewestFirst)| ==>
      SortBy(history, NewestFirst)[i].timestamp >= SortBy(history, NewestFirst)[j].timestamp
  {
    NewestFirstTotalPreorder();
    SortSorted(history, NewestFirst);
    SortPermutes(history, NewestFirst);
  }
}
