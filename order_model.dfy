/**
 * The `Order` schema of src/tasks/order.py and the dictionary view that
 * `model_dump()` gives of it: a key per field, in declaration order, each
 * with a value that may be `None`.
 */
module OrderModel {
  import opened Wrappers

  /** One order snapshot: five optional data fields and the confirmation flag. */
  datatype Order = Order(
    customerName: Option<string>,
    phone: Option<string>,
    address: Option<string>,
    bookId: Option<int>,
    quantity: Option<int>,
    confirmed: bool)

  /** The keys of the dumped dictionary. */
  datatype Key = CustomerName | Phone | Address | BookId | Quantity | Confirmed

  /** The keys in the order in which the schema declares its fields. */
  const Schema: seq<Key> := [CustomerName, Phone, Address, BookId, Quantity, Confirmed]

  /** The five data keys, in schema order. */
  const DataKeys: seq<Key> := [CustomerName, Phone, Address, BookId, Quantity]

  /** A dictionary value: Python's `None`, a string, an integer or a boolean. */
  datatype Value = Null | Text(text: string) | Number(number: int) | Flag(flag: bool)

  /** Position of a key in the schema. */
  function SchemaIndex(k: Key): (i: nat)
    ensures i < |Schema| && Schema[i] == k
  {
    match k
    case CustomerName => 0
    case Phone => 1
    case Address => 2
    case BookId => 3
    case Quantity => 4
    case Confirmed => 5
  }

  function TextValue(o: Option<string>): Value {
    if o.Some? then Text(o.value) else Null
  }

  function NumberValue(o: Option<int>): Value {
    if o.Some? then Number(o.value) else Null
  }

  /** `data[key]` on the dumped dictionary. */
  function ValueOf(d: Order, k: Key): (v: Value)
    ensures v == Null <==> k != Confirmed && !HasValue(d, k)
  {
    match k
    case CustomerName => TextValue(d.customerName)
    case Phone => TextValue(d.phone)
    case Address => TextValue(d.address)
    case BookId => NumberValue(d.bookId)
    case Quantity => NumberValue(d.quantity)
    case Confirmed => Flag(d.confirmed)
  }

  /** The data field behind `k` holds a value (the flag always does). */
  predicate HasValue(d: Order, k: Key) {
    match k
    case CustomerName => d.customerName.Some?
    case Phone => d.phone.Some?
    case Address => d.address.Some?
    case BookId => d.bookId.Some?
    case Quantity => d.quantity.Some?
    case Confirmed => true
  }

  /** All five data fields are present. */
  predicate IsComplete(d: Order) {
    d.customerName.Some? && d.phone.Some? && d.address.Some? && d.bookId.Some? && d.quantity.Some?
  }

  /** The test inside the `missing_fields` comprehension. */
  predicate IsMissing(d: Order, k: Key) {
    ValueOf(d, k) == Null && k != Confirmed
  }

  /** Keys listed in strictly increasing schema position. */
  predicate InSchemaOrder(keys: seq<Key>) {
    forall i, j :: 0 <= i < j < |keys| ==> SchemaIndex(keys[i]) < SchemaIndex(keys[j])
  }

  /** The comprehension over a list of keys. */
  function MissingAmong(d: Order, keys: seq<Key>): seq<Key> {
    if keys == [] then []
    else (if IsMissing(d, keys[0]) then [keys[0]] else []) + MissingAmong(d, keys[1..])
  }

  lemma {:induction false} MissingAmongMembers(d: Order, keys: seq<Key>)
    ensures forall k :: k in MissingAmong(d, keys) <==> k in keys && IsMissing(d, k)
  {
    if keys != [] {
      MissingAmongMembers(d, keys[1..]);
      assert keys == [keys[0]] + keys[1..];
    }
  }

  lemma {:induction false} MissingAmongKeepsOrder(d: Order, keys: seq<Key>)
    requires InSchemaOrder(keys)
    ensures InSchemaOrder(MissingAmong(d, keys))
  {
    if keys != [] {
      var rest := MissingAmong(d, keys[1..]);
      MissingAmongKeepsOrder(d, keys[1..]);
      MissingAmongMembers(d, keys[1..]);
      if IsMissing(d, keys[0]) {
        var r := [keys[0]] + rest;
        forall i, j | 0 <= i < j < |r| ensures SchemaIndex(r[i]) < SchemaIndex(r[j]) {
          if i == 0 {
            assert r[j] in keys[1..];
            var m :| 0 <= m < |keys[1..]| && keys[1..][m] == r[j];
            assert keys[m + 1] == r[j];
          } else {
            assert r[i] == rest[i - 1] && r[j] == rest[j - 1];
          }
        }
      } else {
        assert MissingAmong(d, keys) == rest;
      }
    }
  }

  /**
   * `missing_fields`: the keys whose value is `None`, other than the flag,
   * in schema order.
   */
  function MissingFields(d: Order): (r: seq<Key>)
    ensures forall k :: k in r <==> IsMissing(d, k)
    ensures Confirmed !in r
    ensures InSchemaOrder(r)
    ensures r == [] <==> IsComplete(d)
  {
    MissingAmongMembers(d, Schema);
    MissingAmongKeepsOrder(d, Schema);
    var r := MissingAmong(d, Schema);
    assert forall k :: k in Schema by {
      forall k ensures k in Schema { assert Schema[SchemaIndex(k)] == k; }
    }
    assert !IsComplete(d) ==> r != [] by {
      if !IsComplete(d) {
        if d.customerName.None? { assert CustomerName in r; }
        else if d.phone.None? { assert Phone in r; }
        else if d.address.None? { assert Address in r; }
        else if d.bookId.None? { assert BookId in r; }
        else { assert Quantity in r; }
      }
    }
    assert r != [] ==> r[0] in r;
    r
  }

  /** Two key lists with the same members, both in schema order, are equal. */
  lemma {:induction false} SchemaOrderedUnique(a: seq<Key>, b: seq<Key>)
    requires InSchemaOrder(a) && InSchemaOrder(b)
    requires forall k :: k in a <==> k in b
    ensures a == b
  {
    if a != [] { assert a[0] in a; }
    if b != [] { assert b[0] in b; }
    if a != [] && b != [] {
      LeastFirst(a, b[0]);
      LeastFirst(b, a[0]);
      assert a[0] == b[0];
      forall k ensures k in a[1..] <==> k in b[1..] {
        TailMembers(a, k);
        TailMembers(b, k);
      }
      SchemaOrderedUnique(a[1..], b[1..]);
      assert a == [a[0]] + a[1..] && b == [b[0]] + b[1..];
    }
  }

  /** In a list in schema order the head comes first. */
  lemma LeastFirst(a: seq<Key>, k: Key)
    requires InSchemaOrder(a) && k in a
    ensures SchemaIndex(a[0]) <= SchemaIndex(k)
  {
    var m :| 0 <= m < |a| && a[m] == k;
    assert m == 0 || SchemaIndex(a[0]) < SchemaIndex(a[m]);
  }

  /** In a list in schema order the tail is everything but the head. */
  lemma TailMembers(a: seq<Key>, k: Key)
    requires InSchemaOrder(a) && a != []
    ensures k in a[1..] <==> k in a && k != a[0]
  {
    if k in a && k != a[0] {
      var m :| 0 <= m < |a| && a[m] == k;
      assert a[1..][m - 1] == k;
    }
    if k in a[1..] {
      var m :| 0 <= m < |a[1..]| && a[1..][m] == k;
      assert SchemaIndex(a[0]) < SchemaIndex(a[m + 1]);
    }
  }

  /** `missing_fields` is the subsequence of the schema picked by the comprehension's test, and nothing else. */
  lemma MissingFieldsIsTheFilter(d: Order, keys: seq<Key>)
    requires InSchemaOrder(keys)
    requires forall k :: k in keys <==> IsMissing(d, k)
    ensures MissingFields(d) == keys
  {
    SchemaOrderedUnique(MissingFields(d), keys);
  }

  /** `_initialize_data`: the dump of `Order()`, every data field `None` and the flag false. */
  function InitializeData(): (d: Order)
    ensures MissingFields(d) == DataKeys
    ensures !d.confirmed
  {
    var d := Order(None, None, None, None, None, false);
    MissingFieldsIsTheFilter(d, DataKeys);
    d
  }
}
