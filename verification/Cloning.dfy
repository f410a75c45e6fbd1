// Deep copies on the heap. Metadata values are trees of maps and slices behind references; a copy holds
// the same value and shares no map or slice with the original.
module Cloning {
  import opened Model

  // A dynamically typed value. A nil map or slice is null.
  datatype Any =
    | NilValue
    | BoolValue(b: bool)
    | NumValue(n: int)
    | StringValue(s: string)
    | StringsValue(strs: array?<string>)
    | BytesValue(bytes: array?<bv8>)
    | ListValue(items: array?<Any>)
    | MapValue(m: AnyMap?)

  class AnyMap {
    var fields: map<string, Any>

    constructor ()
      ensures fields == map[]
    {
      fields := map[];
    }
  }

  // The value `j`, laid out on the heap at `v` within the objects `repr`; nil and empty hold the same value.
  ghost predicate Holds(v: Any, j: Json, repr: set<object>)
    reads repr
    decreases j
  {
    match j
    case Null => v.NilValue?
    case Bool(b) => v == BoolValue(b)
    case Num(n) => v == NumValue(n)
    case Str(s) => v == StringValue(s)
    case Strs(strs) =>
      v.StringsValue? && if v.strs == null then strs == [] else v.strs in repr && v.strs[..] == strs
    case Bytes(bytes) =>
      v.BytesValue? && if v.bytes == null then bytes == [] else v.bytes in repr && v.bytes[..] == bytes
    case List(items) =>
      v.ListValue? && if v.items == null then items == [] else
        && v.items in repr && v.items.Length == |items|
        && forall i | 0 <= i < |items| :: Holds(v.items[i], items[i], repr - {v.items})
    case Obj(fields) =>
      v.MapValue? && if v.m == null then fields == map[] else
        && v.m in repr && v.m.fields.Keys == fields.Keys
        && forall k | k in fields :: Holds(v.m.fields[k], fields[k], repr - {v.m})
  }

  lemma {:induction false} HoldsMore(v: Any, j: Json, repr: set<object>, more: set<object>)
    requires Holds(v, j, repr) && repr <= more
    ensures Holds(v, j, more)
    decreases j
  {
    match j
    case List(items) =>
      if v.items != null {
        forall i | 0 <= i < |items| ensures Holds(v.items[i], items[i], more - {v.items}) {
          HoldsMore(v.items[i], items[i], repr - {v.items}, more - {v.items});
        }
      }
    case Obj(fields) =>
      if v.m != null {
        forall k | k in fields ensures Holds(v.m.fields[k], fields[k], more - {v.m}) {
          HoldsMore(v.m.fields[k], fields[k], repr - {v.m}, more - {v.m});
        }
      }
    case _ =>
  }

  // A heap value holds at most one value, so two that hold the same one are structurally equal.
  lemma {:induction false} HoldsOne(v: Any, j: Json, j': Json, repr: set<object>, repr': set<object>)
    requires Holds(v, j, repr) && Holds(v, j', repr')
    ensures j == j'
    decreases j
  {
    match j
    case List(items) =>
      if v.items != null {
        forall i | 0 <= i < |items| ensures items[i] == j'.items[i] {
          HoldsOne(v.items[i], items[i], j'.items[i], repr - {v.items}, repr' - {v.items});
        }
        assert items == j'.items;
      }
    case Obj(fields) =>
      if v.m != null {
        forall k | k in fields ensures fields[k] == j'.fields[k] {
          HoldsOne(v.m.fields[k], fields[k], j'.fields[k], repr - {v.m}, repr' - {v.m});
        }
        assert fields == j'.fields;
      }
    case _ =>
  }

  // A copy holding the same value in objects that did not exist before.
  method CloneAny(v: Any, ghost j: Json, ghost repr: set<object>) returns (c: Any, ghost fp: set<object>)
    requires Holds(v, j, repr)
    ensures Holds(c, j, fp) && fresh(fp)
    decreases j, 2
  {
    fp := {};
    match v
    case MapValue(m) =>
      var cp;
      cp, fp := CloneAnyMap(m, j, repr);
      c := MapValue(cp);
    case ListValue(items) =>
      if items == null {
        var none := new Any[0];
        fp := {none};
        c := ListValue(none);
      } else {
        c, fp := CloneList(items, j, repr);
      }
    case StringsValue(strs) =>
      var n := if strs == null then 0 else strs.Length;
      var cp := new string[n];
      for i := 0 to n
        invariant forall k | 0 <= k < i :: cp[k] == strs[k]
        invariant strs != null ==> strs[..] == old(strs[..])
      {
        cp[i] := strs[i];
      }
      assert strs != null ==> cp[..] == strs[..];
      fp := {cp};
      c := StringsValue(cp);
    case BytesValue(bytes) =>
      if bytes == null || bytes.Length == 0 {
        c := BytesValue(null);
      } else {
        var cp := new bv8[bytes.Length](i requires 0 <= i < bytes.Length reads bytes => bytes[i]);
        assert cp[..] == bytes[..];
        fp := {cp};
        c := BytesValue(cp);
      }
    case _ => c := v;
  }

  // The first n slots of a list copy hold the items, without the list's own array.
  ghost predicate Filled(cp: array<Any>, n: int, items: seq<Json>, repr: set<object>)
    reads repr, cp
  {
    0 <= n <= cp.Length && n <= |items| && forall i | 0 <= i < n :: Holds(cp[i], items[i], repr - {cp})
  }

  lemma ItemHolds(items: array<Any>, j: Json, repr: set<object>, i: int)
    requires Holds(ListValue(items), j, repr) && j.List?
    ensures items.Length == |j.items|
    ensures 0 <= i < items.Length ==> Holds(items[i], j.items[i], repr - {items})
  {
  }

  lemma FilledMore(cp: array<Any>, n: int, items: seq<Json>, repr: set<object>, more: set<object>)
    requires Filled(cp, n, items, repr) && n < cp.Length && n < |items|
    requires Holds(cp[n], items[n], more) && cp !in more
    ensures Filled(cp, n + 1, items, repr + more)
  {
    forall i | 0 <= i <= n ensures Holds(cp[i], items[i], repr + more - {cp}) {
      HoldsMore(cp[i], items[i], if i < n then repr - {cp} else more, repr + more - {cp});
    }
    hide Holds;
  }

  method CloneList(items: array<Any>, ghost j: Json, ghost repr: set<object>) returns (c: Any, ghost fp: set<object>)
    requires j.List? && Holds(ListValue(items), j, repr)
    ensures Holds(c, j, fp) && fresh(fp)
    decreases j, 0
  {
    ItemHolds(items, j, repr, 0);
    var cp := new Any[items.Length](_ => NilValue);
    fp := {cp};
    for i := 0 to items.Length
      invariant cp in fp && fresh(fp)
      invariant Holds(ListValue(items), j, repr)
      invariant Filled(cp, i, j.items, fp)
    {
      ItemHolds(items, j, repr, i);
      ghost var before := fp;
      var e, more := CloneAny(items[i], j.items[i], repr - {items});
      cp[i] := e;
      fp := fp + more;
      assert Filled(cp, i, j.items, before);
      FilledMore(cp, i, j.items, before, more);
    }
    c := ListValue(cp);
  }

  // The entries hold the fields of the same names.
  ghost predicate EntriesHold(entries: map<string, Any>, fields: map<string, Json>, repr: set<object>)
    reads repr
  {
    forall k | k in entries :: k in fields && Holds(entries[k], fields[k], repr)
  }

  lemma FieldHolds(m: AnyMap, j: Json, repr: set<object>, k: string)
    requires Holds(MapValue(m), j, repr) && j.Obj?
    ensures m.fields.Keys == j.fields.Keys
    ensures k in m.fields ==> Holds(m.fields[k], j.fields[k], repr - {m})
  {
  }

  lemma EntryAdded(entries: map<string, Any>, k: string, e: Any, fields: map<string, Json>,
                   repr: set<object>, more: set<object>, all: set<object>)
    requires EntriesHold(entries, fields, repr) && k in fields && Holds(e, fields[k], more)
    requires repr <= all && more <= all
    ensures EntriesHold(entries[k := e], fields, all)
  {
    var entries' := entries[k := e];
    forall x | x in entries' ensures x in fields && Holds(entries'[x], fields[x], all) {
      HoldsMore(entries'[x], fields[x], if x == k then more else repr, all);
    }
    hide Holds;
  }

  lemma MapBuilt(cp: AnyMap, j: Json, repr: set<object>)
    requires j.Obj? && cp in repr && cp.fields.Keys == j.fields.Keys && EntriesHold(cp.fields, j.fields, repr - {cp})
    ensures Holds(MapValue(cp), j, repr)
  {
  }

  method CloneAnyMap(m: AnyMap?, ghost j: Json, ghost repr: set<object>) returns (c: AnyMap?, ghost fp: set<object>)
    requires j.Obj? && Holds(MapValue(m), j, repr)
    ensures Holds(MapValue(c), j, fp) && fresh(fp)
    ensures c == null <==> m == null
    decreases j, 1
  {
    if m == null {
      return null, {};
    }
    var cp;
    cp, fp := CloneFields(m, j, repr);
    MapBuilt(cp, j, fp);
    c := cp;
  }

  method CloneFields(m: AnyMap, ghost j: Json, ghost repr: set<object>) returns (cp: AnyMap, ghost fp: set<object>)
    requires j.Obj? && Holds(MapValue(m), j, repr)
    ensures fresh(fp) && cp in fp && cp.fields.Keys == j.fields.Keys
    ensures EntriesHold(cp.fields, j.fields, fp - {cp})
    decreases j, 0
  {
    hide Holds, EntriesHold;
    FieldHolds(m, j, repr, "");
    cp := new AnyMap();
    NoEntries(j.fields);
    ghost var inner: set<object> := {};
    var rest := m.fields.Keys;
    while rest != {}
      invariant fresh(inner) && fresh(cp) && cp !in inner
      invariant Holds(MapValue(m), j, repr) && rest <= m.fields.Keys
      invariant cp.fields.Keys == m.fields.Keys - rest
      invariant EntriesHold(cp.fields, j.fields, inner)
      decreases |rest|
    {
      var k :| k in rest;
      FieldHolds(m, j, repr, k);
      rest := rest - {k};
      var e, more := CloneAny(m.fields[k], j.fields[k], repr - {m});
      EntryAdded(cp.fields, k, e, j.fields, inner, more, inner + more);
      cp.fields := cp.fields[k := e];
      inner := inner + more;
    }
    fp := inner + {cp};
    assert fp - {cp} == inner;
  }

  lemma NoEntries(fields: map<string, Json>)
    ensures EntriesHold(map[], fields, {})
  {
  }

  // ---- users --------------------------------------------------------------------

  // A stored identity: its scalar fields, and its data behind a reference.
  datatype IdentityRecord = IdentityRecord(fixed: Identity, data: AnyMap?)

  // A stored user: its scalar fields, and everything it holds behind references.
  class UserRecord {
    var fixed: User
    var appMetadata: AnyMap?
    var userMetadata: AnyMap?
    var identities: array?<IdentityRecord>
    var passwordHash: array?<bv8>
    var factors: array?<Factor>

    constructor (fixed: User, appMetadata: AnyMap?, userMetadata: AnyMap?, identities: array?<IdentityRecord>,
                 passwordHash: array?<bv8>, factors: array?<Factor>)
      ensures this.fixed == fixed && this.appMetadata == appMetadata && this.userMetadata == userMetadata
      ensures this.identities == identities && this.passwordHash == passwordHash && this.factors == factors
    {
      this.fixed, this.appMetadata, this.userMetadata := fixed, appMetadata, userMetadata;
      this.identities, this.passwordHash, this.factors := identities, passwordHash, factors;
    }
  }

  function Scalars(u: User): User {
    u.(appMetadata := map[], userMetadata := map[], identities := [], passwordHash := [], factors := [])
  }

  ghost predicate HoldsIdentity(i: IdentityRecord, val: Identity, repr: set<object>)
    reads repr
  {
    i.fixed == val.(identityData := map[]) && Holds(MapValue(i.data), Obj(val.identityData), repr)
  }

  ghost predicate HoldsIdentities(a: array?<IdentityRecord>, vals: seq<Identity>, repr: set<object>)
    reads repr
  {
    if a == null then vals == []
    else a in repr && a.Length == |vals| && forall i | 0 <= i < |vals| :: HoldsIdentity(a[i], vals[i], repr - {a})
  }

  ghost predicate HoldsSlice<T>(a: array?<T>, vals: seq<T>, repr: set<object>)
    reads repr
  {
    if a == null then vals == [] else a in repr && a[..] == vals
  }

  // The user `val`, laid out on the heap at `u` within the objects `repr`.
  ghost predicate HoldsUser(u: UserRecord, val: User, repr: set<object>)
    reads repr
  {
    && u in repr && u.fixed == Scalars(val)
    && HoldsParts(u.appMetadata, u.userMetadata, u.identities, u.passwordHash, u.factors, val, repr - {u})
  }

  ghost predicate HoldsParts(app: AnyMap?, meta: AnyMap?, ids: array?<IdentityRecord>, hash: array?<bv8>,
                             factors: array?<Factor>, val: User, repr: set<object>)
    reads repr
  {
    && Holds(MapValue(app), Obj(val.appMetadata), repr)
    && Holds(MapValue(meta), Obj(val.userMetadata), repr)
    && HoldsIdentities(ids, val.identities, repr)
    && HoldsSlice(hash, val.passwordHash, repr)
    && HoldsSlice(factors, val.factors, repr)
  }

  lemma IdentitiesMore(a: array?<IdentityRecord>, vals: seq<Identity>, repr: set<object>, more: set<object>)
    requires HoldsIdentities(a, vals, repr) && repr <= more
    ensures HoldsIdentities(a, vals, more)
  {
    if a != null {
      forall i | 0 <= i < |vals| ensures HoldsIdentity(a[i], vals[i], more - {a}) {
        HoldsMore(MapValue(a[i].data), Obj(vals[i].identityData), repr - {a}, more - {a});
      }
    }
    hide Holds;
  }

  // Records so far cloned, as values: none of them lies in the array being filled.
  ghost predicate RecordsHold(records: seq<IdentityRecord>, vals: seq<Identity>, repr: set<object>)
    reads repr
  {
    |records| <= |vals| && forall i | 0 <= i < |records| :: HoldsIdentity(records[i], vals[i], repr)
  }

  lemma RecordAdded(records: seq<IdentityRecord>, r: IdentityRecord, vals: seq<Identity>,
                    repr: set<object>, more: set<object>, all: set<object>)
    requires RecordsHold(records, vals, repr) && |records| < |vals| && HoldsIdentity(r, vals[|records|], more)
    requires repr <= all && more <= all
    ensures RecordsHold(records + [r], vals, all)
  {
    var records' := records + [r];
    forall i | 0 <= i < |records'| ensures HoldsIdentity(records'[i], vals[i], all) {
      HoldsMore(MapValue(records'[i].data), Obj(vals[i].identityData), if i < |records| then repr else more, all);
    }
    hide Holds;
  }

  lemma IdentityAt(a: array<IdentityRecord>, vals: seq<Identity>, repr: set<object>, i: int)
    requires HoldsIdentities(a, vals, repr)
    ensures a.Length == |vals|
    ensures 0 <= i < |vals| ==> HoldsIdentity(a[i], vals[i], repr - {a})
  {
  }

  method CloneIdentities(a: array<IdentityRecord>, ghost vals: seq<Identity>, ghost repr: set<object>)
    returns (c: array<IdentityRecord>, ghost fp: set<object>)
    requires HoldsIdentities(a, vals, repr)
    ensures HoldsIdentities(c, vals, fp) && fresh(fp)
  {
    IdentityAt(a, vals, repr, 0);
    c := new IdentityRecord[a.Length](i requires 0 <= i < a.Length reads a => a[i]);
    ghost var inner: set<object> := {};
    for i := 0 to a.Length
      invariant fresh(inner) && fresh(c) && c !in inner && c.Length == a.Length == |vals|
      invariant forall k | i <= k < a.Length :: c[k] == a[k]
      invariant HoldsIdentities(a, vals, repr)
      invariant RecordsHold(c[..i], vals, inner)
    {
      hide Holds, RecordsHold, HoldsIdentities;
      IdentityAt(a, vals, repr, i);
      var data, more := CloneAnyMap(c[i].data, Obj(vals[i].identityData), repr - {a});
      ghost var before := c[..i];
      var r := c[i].(data := data);
      RecordAdded(before, r, vals, inner, more, inner + more);
      c[i] := r;
      assert c[..i + 1] == before + [r];
      inner := inner + more;
    }
    assert c[..a.Length] == c[..];
    fp := inner + {c};
    assert fp - {c} == inner;
  }

  method CloneSlice<T(0)>(a: array?<T>, ghost vals: seq<T>, ghost repr: set<object>)
    returns (c: array?<T>, ghost fp: set<object>)
    requires HoldsSlice(a, vals, repr)
    ensures HoldsSlice(c, vals, fp) && fresh(fp)
  {
    if a == null || a.Length == 0 {
      return null, {};
    }
    c := new T[a.Length](i requires 0 <= i < a.Length reads a => a[i]);
    assert c[..] == a[..];
    fp := {c};
  }

  lemma PartsBuilt(app: AnyMap?, meta: AnyMap?, ids: array?<IdentityRecord>, hash: array?<bv8>, factors: array?<Factor>,
                   val: User, a: set<object>, b: set<object>, c: set<object>, d: set<object>, e: set<object>)
    requires Holds(MapValue(app), Obj(val.appMetadata), a) && Holds(MapValue(meta), Obj(val.userMetadata), b)
    requires HoldsIdentities(ids, val.identities, c)
    requires HoldsSlice(hash, val.passwordHash, d) && HoldsSlice(factors, val.factors, e)
    ensures HoldsParts(app, meta, ids, hash, factors, val, a + b + c + d + e)
  {
    HoldsMore(MapValue(app), Obj(val.appMetadata), a, a + b + c + d + e);
    HoldsMore(MapValue(meta), Obj(val.userMetadata), b, a + b + c + d + e);
    IdentitiesMore(ids, val.identities, c, a + b + c + d + e);
    hide Holds, HoldsIdentities;
  }

  method CloneMetadata(u: UserRecord, ghost val: User, ghost repr: set<object>)
    returns (app: AnyMap?, meta: AnyMap?, ghost a: set<object>, ghost b: set<object>)
    requires HoldsUser(u, val, repr)
    ensures Holds(MapValue(app), Obj(val.appMetadata), a) && fresh(a)
    ensures Holds(MapValue(meta), Obj(val.userMetadata), b) && fresh(b)
  {
    hide Holds, HoldsIdentities, HoldsSlice;
    app, a := CloneAnyMap(u.appMetadata, Obj(val.appMetadata), repr - {u});
    meta, b := CloneAnyMap(u.userMetadata, Obj(val.userMetadata), repr - {u});
  }

  method CloneLists(u: UserRecord, ghost val: User, ghost repr: set<object>)
    returns (ids: array?<IdentityRecord>, hash: array?<bv8>, ghost c: set<object>, ghost d: set<object>)
    requires HoldsUser(u, val, repr)
    ensures HoldsIdentities(ids, val.identities, c) && fresh(c)
    ensures HoldsSlice(hash, val.passwordHash, d) && fresh(d)
  {
    hide Holds, HoldsSlice;
    ids, c := null, {};
    if u.identities != null {
      ids, c := CloneIdentities(u.identities, val.identities, repr - {u});
    }
    hash, d := CloneSlice(u.passwordHash, val.passwordHash, repr - {u});
  }

  // The copy lookups return: detached from the stored user in every map and slice, with the given
  // factor listing filled in.
  method CloneUser(u: UserRecord, ghost val: User, ghost repr: set<object>, fs: seq<Factor>)
    returns (copy: UserRecord, ghost fp: set<object>)
    requires HoldsUser(u, val, repr)
    ensures HoldsUser(copy, val.(factors := fs), fp) && fresh(fp)
  {
    hide Holds, HoldsIdentities, HoldsSlice, HoldsParts;
    assert u.fixed == Scalars(val);
    var app, meta, a, b := CloneMetadata(u, val, repr);
    var ids, hash, c, d := CloneLists(u, val, repr);
    var listing := NewListing(fs);
    PartsBuilt(app, meta, ids, hash, listing, val.(factors := fs), a, b, c, d, {listing});
    ghost var inner := a + b + c + d + {listing};
    copy := new UserRecord(u.fixed, app, meta, ids, hash, listing);
    fp := inner + {copy};
    assert fp - {copy} == inner;
  }

  method NewListing(fs: seq<Factor>) returns (listing: array<Factor>)
    ensures fresh(listing) && HoldsSlice(listing, fs, {listing})
  {
    listing := new Factor[|fs|](i requires 0 <= i < |fs| => fs[i]);
  }

  // ---- what detachment is for -----------------------------------------------------

  // Whatever is written through a returned copy, the next lookup returns the same user.
  method LookupAfterWrites(u: UserRecord, ghost val: User, ghost repr: set<object>, fs: seq<Factor>)
    returns (first: UserRecord, second: UserRecord, ghost fp: set<object>)
    requires HoldsUser(u, val, repr)
    ensures HoldsUser(u, val, repr)
    ensures HoldsUser(second, val.(factors := fs), fp) && fresh(fp)
  {
    ghost var scratch;
    first, scratch := CloneUser(u, val, repr, fs);
    modify scratch;
    second, fp := CloneUser(u, val, repr, fs);
  }

  // Storing metadata copies it in, so writes through the caller's own map never reach the store.
  method SetUserMetadata(u: UserRecord, ghost val: User, ghost repr: set<object>,
                         data: AnyMap?, ghost m: Meta, ghost callers: set<object>, now: int)
    returns (ghost repr': set<object>)
    requires HoldsUser(u, val, repr) && Holds(MapValue(data), Obj(m), callers)
    modifies u
    ensures HoldsUser(u, val.(userMetadata := m, updatedAt := now), repr')
    ensures fresh(repr' - repr)
  {
    hide Holds, HoldsIdentities, HoldsSlice;
    var copy, fp := CloneAnyMap(data, Obj(m), callers);
    u.userMetadata := copy;
    u.fixed := u.fixed.(updatedAt := now);
    ghost var inner := (repr - {u}) + fp;
    MetadataReplaced(u.appMetadata, copy, u.identities, u.passwordHash, u.factors, val, m, now, repr - {u}, fp);
    repr' := inner + {u};
    assert repr' - {u} == inner;
  }

  lemma MetadataReplaced(app: AnyMap?, copy: AnyMap?, ids: array?<IdentityRecord>, hash: array?<bv8>,
      factors: array?<Factor>,
                         val: User, m: Meta, now: int, repr: set<object>, fp: set<object>)
    requires Holds(MapValue(app), Obj(val.appMetadata), repr) && HoldsIdentities(ids, val.identities, repr)
    requires HoldsSlice(hash, val.passwordHash, repr) && HoldsSlice(factors, val.factors, repr)
    requires Holds(MapValue(copy), Obj(m), fp)
    ensures HoldsParts(app, copy, ids, hash, factors, val.(userMetadata := m, updatedAt := now), repr + fp)
  {
    HoldsMore(MapValue(app), Obj(val.appMetadata), repr, repr + fp);
    HoldsMore(MapValue(copy), Obj(m), fp, repr + fp);
    IdentitiesMore(ids, val.identities, repr, repr + fp);
    hide Holds, HoldsIdentities;
  }

  method WritesThroughArgument(u: UserRecord, ghost val: User, ghost repr: set<object>,
                               data: AnyMap?, ghost m: Meta, ghost callers: set<object>, now: int)
    returns (ghost repr': set<object>)
    requires HoldsUser(u, val, repr) && Holds(MapValue(data), Obj(m), callers) && callers !! repr
    modifies u, callers
    ensures HoldsUser(u, val.(userMetadata := m, updatedAt := now), repr')
  {
    repr' := SetUserMetadata(u, val, repr, data, m, callers, now);
    modify callers;
  }
}
