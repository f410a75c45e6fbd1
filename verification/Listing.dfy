// Ordered listings. Go's sort.Slice is not stable and map iteration has no order,
// so what a listing promises is what every sorting of every enumeration shares.
module Listing {
  import opened Text
  import opened Model

  // A strict weak order, as sort.Slice asks of its less function.
  ghost predicate WeakOrder<T(!new)>(less: (T, T) -> bool) {
    && (forall a, b :: less(a, b) ==> !less(b, a))
    && (forall a, b, c :: !less(b, a) && !less(c, b) ==> !less(c, a))
  }

  // No element is below an earlier one.
  ghost predicate Ascending<T>(less: (T, T) -> bool, l: seq<T>) {
    forall i, j | 0 <= i < j < |l| :: !less(l[j], l[i])
  }

  // Every element is strictly below every later one.
  ghost predicate Increasing<T>(less: (T, T) -> bool, l: seq<T>) {
    forall i, j | 0 <= i < j < |l| :: less(l[i], l[j])
  }

  function Insert<T>(less: (T, T) -> bool, x: T, l: seq<T>): (r: seq<T>)
    ensures |r| == |l| + 1
  {
    if l == [] then [x]
    else if less(x, l[0]) then [x] + l
    else [l[0]] + Insert(less, x, l[1..])
  }

  // Stands for sort.Slice.
  function Sort<T>(less: (T, T) -> bool, l: seq<T>): (r: seq<T>)
    ensures |r| == |l|
  {
    if l == [] then [] else Insert(less, l[0], Sort(less, l[1..]))
  }

  lemma {:induction false} InsertPermutes<T>(less: (T, T) -> bool, x: T, l: seq<T>)
    ensures multiset(Insert(less, x, l)) == multiset{x} + multiset(l)
  {
    if l != [] && !less(x, l[0]) {
      InsertPermutes(less, x, l[1..]);
      assert l == [l[0]] + l[1..];
    }
  }

  lemma {:induction false} SortPermutes<T>(less: (T, T) -> bool, l: seq<T>)
    ensures multiset(Sort(less, l)) == multiset(l)
  {
    if l != [] {
      SortPermutes(less, l[1..]);
      InsertPermutes(less, l[0], Sort(less, l[1..]));
      assert l == [l[0]] + l[1..];
    }
  }

  lemma InsertedBelow<T(!new)>(less: (T, T) -> bool, x: T, l: seq<T>, y: T)
    requires y in Insert(less, x, l)
    ensures y == x || y in l
  {
    InsertPermutes(less, x, l);
    assert y in multiset(Insert(less, x, l));
  }

  lemma HeadLowest<T(!new)>(less: (T, T) -> bool, x: T, l: seq<T>, y: T)
    requires WeakOrder(less) && Ascending(less, l) && l != [] && !less(l[0], x) && y in l
    ensures !less(y, x)
  {
    var j :| 0 <= j < |l| && l[j] == y;
    assert j > 0 ==> !less(l[j], l[0]);
  }

  lemma {:induction false} InsertAscends<T(!new)>(less: (T, T) -> bool, x: T, l: seq<T>)
    requires WeakOrder(less) && Ascending(less, l)
    ensures Ascending(less, Insert(less, x, l))
  {
    if l != [] && !less(x, l[0]) {
      var tail := Insert(less, x, l[1..]);
      InsertAscends(less, x, l[1..]);
      forall y | y in tail ensures !less(y, l[0]) {
        InsertedBelow(less, x, l[1..], y);
        if y != x {
          HeadLowest(less, l[0], l, y);
        }
      }
      hide Insert;
    } else if l != [] {
      forall y | y in l ensures !less(y, x) {
        HeadLowest(less, x, l, y);
      }
    }
  }

  lemma {:induction false} SortAscends<T(!new)>(less: (T, T) -> bool, l: seq<T>)
    requires WeakOrder(less)
    ensures Ascending(less, Sort(less, l))
  {
    if l != [] {
      SortAscends(less, l[1..]);
      InsertAscends(less, l[0], Sort(less, l[1..]));
    }
  }

  // Two increasing sequences over the same elements are the same sequence.
  lemma {:induction false} IncreasingUnique<T(!new)>(less: (T, T) -> bool, a: seq<T>, b: seq<T>)
    requires WeakOrder(less)
    requires Increasing(less, a) && Increasing(less, b)
    requires forall x :: x in a <==> x in b
    ensures a == b
  {
    assert a != [] ==> a[0] in b;
    assert b != [] ==> b[0] in a;
    if a != [] && b != [] {
      assert a[0] == b[0];
      forall x ensures x in a[1..] <==> x in b[1..] {
        assert x in a[1..] ==> x in a && less(a[0], x);
        assert x in b[1..] ==> x in b && less(b[0], x);
      }
      IncreasingUnique(less, a[1..], b[1..]);
      assert a == [a[0]] + a[1..] && b == [b[0]] + b[1..];
    }
  }

  // (creation time, id): the order of a user's factor and passkey listings.
  predicate Before(at: int, id: Id, at': int, id': Id) {
    if at == at' then Less(id, id') else at < at'
  }

  lemma BeforeIsOrder(at: int, id: Id, at': int, id': Id)
    ensures Before(at, id, at', id') ==> !Before(at', id', at, id)
    ensures at != at' || id != id' ==> Before(at, id, at', id') || Before(at', id', at, id)
  {
    LessTotal(id, id');
    LessIrreflexive(id);
    if Less(id, id') && Less(id', id) {
      LessTransitive(id, id', id);
    }
  }

  lemma BeforeNegTransitive(a: int, x: Id, b: int, y: Id, c: int, z: Id)
    requires !Before(b, y, a, x) && !Before(c, z, b, y)
    ensures !Before(c, z, a, x)
  {
    if Before(c, z, a, x) && c == a {
      LessTotal(x, y);
      LessTotal(y, z);
      if x == y || y == z {
      } else {
        LessTransitive(x, y, z);
        LessTransitive(x, z, x);
        LessIrreflexive(x);
      }
    }
  }

  const FACTOR_LESS := (a: Factor, b: Factor) => Before(a.createdAt, a.id, b.createdAt, b.id)
  const PASSKEY_LESS := (a: Passkey, b: Passkey) => Before(a.createdAt, a.id, b.createdAt, b.id)
  const USER_LESS := (a: User, b: User) => a.createdAt < b.createdAt

  lemma FactorLessIsOrder()
    ensures WeakOrder(FACTOR_LESS)
  {
    forall a: Factor, b: Factor ensures FACTOR_LESS(a, b) ==> !FACTOR_LESS(b, a) {
      BeforeIsOrder(a.createdAt, a.id, b.createdAt, b.id);
    }
    forall a: Factor, b: Factor, c: Factor | !FACTOR_LESS(b, a) && !FACTOR_LESS(c, b) ensures !FACTOR_LESS(c, a) {
      BeforeNegTransitive(a.createdAt, a.id, b.createdAt, b.id, c.createdAt, c.id);
    }
  }

  lemma PasskeyLessIsOrder()
    ensures WeakOrder(PASSKEY_LESS)
  {
    forall a: Passkey, b: Passkey ensures PASSKEY_LESS(a, b) ==> !PASSKEY_LESS(b, a) {
      BeforeIsOrder(a.createdAt, a.id, b.createdAt, b.id);
    }
    forall a: Passkey, b: Passkey, c: Passkey | !PASSKEY_LESS(b, a) && !PASSKEY_LESS(c, b)
      ensures !PASSKEY_LESS(c, a)
    {
      BeforeNegTransitive(a.createdAt, a.id, b.createdAt, b.id, c.createdAt, c.id);
    }
  }

  // An enumeration of a set: every element once, in any order.
  ghost predicate Enumerates<T(!new)>(l: seq<T>, s: set<T>) {
    && (forall x :: x in l <==> x in s)
    && (forall i, j | 0 <= i < j < |l| :: l[i] != l[j])
  }

  ghost function SomeEnumeration<T(!new)>(s: set<T>): (l: seq<T>)
    ensures Enumerates(l, s)
  {
    if s == {} then []
    else
      var x :| x in s;
      var rest := SomeEnumeration(s - {x});
      [x] + rest
  }

  // Sorting any enumeration of records with distinct keys gives one and the same increasing sequence.
  lemma SortedEnumeration<T(!new)>(less: (T, T) -> bool, l: seq<T>, s: set<T>)
    requires WeakOrder(less) && Enumerates(l, s)
    requires forall a, b | a in s && b in s && a != b :: less(a, b) || less(b, a)
    ensures Increasing(less, Sort(less, l)) && Enumerates(Sort(less, l), s)
  {
    var r := Sort(less, l);
    SortAscends(less, l);
    SortPermutes(less, l);
    SameMultisetEnumerates(l, r, s);
  }

  lemma SameMultisetEnumerates<T(!new)>(l: seq<T>, r: seq<T>, s: set<T>)
    requires Enumerates(l, s) && multiset(l) == multiset(r)
    ensures Enumerates(r, s)
  {
    forall x ensures x in r <==> x in s {
      assert x in r <==> x in multiset(r);
      assert x in l <==> x in multiset(l);
    }
    forall i, j | 0 <= i < j < |r| ensures r[i] != r[j] {
      if r[i] == r[j] {
        assert r == r[..i] + [r[i]] + r[i + 1..j] + [r[j]] + r[j + 1..];
        assert multiset(r)[r[i]] >= 2;
        EnumeratesOnce(l, s, r[i]);
      }
    }
  }

  lemma {:induction false} EnumeratesOnce<T(!new)>(l: seq<T>, s: set<T>, x: T)
    requires Enumerates(l, s)
    ensures multiset(l)[x] <= 1
  {
    if l != [] {
      assert l == [l[0]] + l[1..];
      assert Enumerates(l[1..], s - {l[0]}) by {
        assert forall y :: y in l[1..] ==> y in l;
        forall y | y in s - {l[0]} ensures y in l[1..] {
          assert y in l;
        }
      }
      EnumeratesOnce(l[1..], s - {l[0]}, x);
      if x == l[0] {
        assert x !in l[1..];
      }
    }
  }

  ghost function FactorsOf(factors: map<Id, Factor>, userID: Id): set<Factor> {
    set id | id in factors && factors[id].userID == userID :: factors[id]
  }

  ghost function PasskeysOf(passkeys: map<Id, Passkey>, userID: Id): set<Passkey> {
    set id | id in passkeys && passkeys[id].userID == userID :: passkeys[id]
  }

  // A user's factors, ordered by creation time with ties broken by id.
  ghost function FactorList(factors: map<Id, Factor>, userID: Id): seq<Factor> {
    Sort(FACTOR_LESS, SomeEnumeration(FactorsOf(factors, userID)))
  }

  ghost function PasskeyList(passkeys: map<Id, Passkey>, userID: Id): seq<Passkey> {
    Sort(PASSKEY_LESS, SomeEnumeration(PasskeysOf(passkeys, userID)))
  }

  // Every record is stored under its own id.
  ghost predicate FactorsKeyed(factors: map<Id, Factor>) {
    forall id | id in factors :: factors[id].id == id
  }

  ghost predicate PasskeysKeyed(passkeys: map<Id, Passkey>) {
    forall id | id in passkeys :: passkeys[id].id == id
  }

  // The factor listing holds exactly the user's factors, strictly increasing, and it
  // is what sorting any iteration order of the factors map yields.
  lemma FactorListing(factors: map<Id, Factor>, userID: Id, scan: seq<Factor>)
    requires FactorsKeyed(factors)
    requires Enumerates(scan, FactorsOf(factors, userID))
    ensures Increasing(FACTOR_LESS, FactorList(factors, userID))
    ensures forall f :: f in FactorList(factors, userID) <==>
              f.id in factors && factors[f.id] == f && f.userID == userID
    ensures Sort(FACTOR_LESS, scan) == FactorList(factors, userID)
  {
    var s := FactorsOf(factors, userID);
    FactorLessIsOrder();
    forall a, b | a in s && b in s && a != b ensures FACTOR_LESS(a, b) || FACTOR_LESS(b, a) {
      BeforeIsOrder(a.createdAt, a.id, b.createdAt, b.id);
    }
    SortedEnumeration(FACTOR_LESS, scan, s);
    SortedEnumeration(FACTOR_LESS, SomeEnumeration(s), s);
    IncreasingUnique(FACTOR_LESS, Sort(FACTOR_LESS, scan), FactorList(factors, userID));
  }

  lemma PasskeyListing(passkeys: map<Id, Passkey>, userID: Id, scan: seq<Passkey>)
    requires PasskeysKeyed(passkeys)
    requires Enumerates(scan, PasskeysOf(passkeys, userID))
    ensures Increasing(PASSKEY_LESS, PasskeyList(passkeys, userID))
    ensures forall p :: p in PasskeyList(passkeys, userID) <==>
              p.id in passkeys && passkeys[p.id] == p && p.userID == userID
    ensures Sort(PASSKEY_LESS, scan) == PasskeyList(passkeys, userID)
  {
    var s := PasskeysOf(passkeys, userID);
    PasskeyLessIsOrder();
    forall a, b | a in s && b in s && a != b ensures PASSKEY_LESS(a, b) || PASSKEY_LESS(b, a) {
      BeforeIsOrder(a.createdAt, a.id, b.createdAt, b.id);
    }
    SortedEnumeration(PASSKEY_LESS, scan, s);
    SortedEnumeration(PASSKEY_LESS, SomeEnumeration(s), s);
    IncreasingUnique(PASSKEY_LESS, Sort(PASSKEY_LESS, scan), PasskeyList(passkeys, userID));
  }

  // The copy of a stored user that lookups return, with the factor listing filled in.
  ghost function CloneUser(factors: map<Id, Factor>, u: User): User {
    u.(factors := FactorList(factors, u.id))
  }
}
