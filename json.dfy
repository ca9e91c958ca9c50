/** JSON values as Python holds them after `json.loads`: `null` is Python's
    `None`, an object is a `dict` (kept as its key/value pairs in order), an
    array a `list`. Numbers are integers only. */
module Json {
  datatype Json =
    | JNull
    | JBool(b: bool)
    | JNum(n: int)
    | JStr(s: string)
    | JArr(items: seq<Json>)
    | JObj(fields: seq<(string, Json)>)

  /** Python's `key in d` for a dict. */
  predicate HasKey(fields: seq<(string, Json)>, key: string)
  {
    exists k :: 0 <= k < |fields| && fields[k].0 == key
  }

  /** Python's `d.get(key)`: the value stored under `key` (the last pair wins,
      as in a dict built from pairs), or `None` when the key is absent. */
  function Get(fields: seq<(string, Json)>, key: string): (r: Json)
    ensures !HasKey(fields, key) ==> r == JNull
    ensures HasKey(fields, key) ==>
      exists k :: 0 <= k < |fields| && fields[k] == (key, r) &&
        forall k' :: k < k' < |fields| ==> fields[k'].0 != key
    decreases |fields|
  {
    if fields == [] then JNull
    else if fields[|fields| - 1].0 == key then fields[|fields| - 1].1
    else
      var r := Get(fields[..|fields| - 1], key);
      assert forall k :: 0 <= k < |fields| - 1 ==> fields[..|fields| - 1][k] == fields[k];
      r
  }

  /** When exactly one pair carries `key`, `d.get(key)` is its value. */
  lemma GetUniqueKey(fields: seq<(string, Json)>, k: nat, key: string)
    requires k < |fields| && fields[k].0 == key
    requires forall k' :: 0 <= k' < |fields| && k' != k ==> fields[k'].0 != key
    ensures Get(fields, key) == fields[k].1
  {
    assert HasKey(fields, key);
  }

  /** The name of the Python type a JSON value becomes, as `type(v).__name__`. */
  function TypeName(v: Json): string
  {
    match v
    case JNull => "NoneType"
    case JBool(_) => "bool"
    case JNum(_) => "int"
    case JStr(_) => "str"
    case JArr(_) => "list"
    case JObj(_) => "dict"
  }

  /** Every character is a decimal digit. */
  predicate AllDigits(r: string)
  {
    forall k :: 0 <= k < |r| ==> '0' <= r[k] <= '9'
  }

  /** The number a string of decimal digits denotes, most significant first. */
  function DecimalValue(r: string): nat
    requires AllDigits(r)
  {
    if r == [] then 0 else DecimalValue(r[..|r| - 1]) * 10 + (r[|r| - 1] - '0') as nat
  }

  /** Python's `str(n)` for a natural number: the decimal digits that denote
      `n`, most significant first, with no leading zero. */
  function NatToDecimal(n: nat): (r: string)
    ensures |r| >= 1 && AllDigits(r)
    ensures DecimalValue(r) == n
    ensures |r| > 1 ==> r[0] != '0'
  {
    var d := ['0' + (n % 10) as char];
    if n < 10 then d
    else
      var r := NatToDecimal(n / 10) + d;
      assert r[..|r| - 1] == NatToDecimal(n / 10);
      r
  }

  /** Python's `str(v)`: `None`, `True`/`False`, decimal integers, text as is,
      and containers as their `repr`. A number prints its value in decimal,
      after a minus sign when negative; `None`, booleans and numbers print on
      one line. */
  function Render(v: Json): (r: string)
    ensures v.JStr? ==> r == v.s
    ensures v.JNull? ==> r == "None"
    ensures v.JBool? ==> r == (if v.b then "True" else "False")
    ensures v.JNum? && v.n >= 0 ==>
      |r| >= 1 && (|r| > 1 ==> r[0] != '0') && AllDigits(r) && DecimalValue(r) == v.n
    ensures v.JNum? && v.n < 0 ==>
      |r| >= 2 && r[0] == '-' && (|r| > 2 ==> r[1] != '0') && AllDigits(r[1..]) && DecimalValue(r[1..]) == -v.n
    ensures v.JNull? || v.JBool? || v.JNum? ==> '\n' !in r
  {
    match v
    case JStr(s) => s
    case JNum(n) =>
      var r := Repr(v);
      assert n < 0 ==> r[1..] == NatToDecimal(-n);
      r
    case _ => Repr(v)
  }

  /** Python's `repr(v)`; text is put between single quotes. An object prints
      as the dict `json.loads` builds from it (see `DictItems`). */
  function Repr(v: Json): string
    decreases v, 1
  {
    match v
    case JNull => "None"
    case JBool(b) => if b then "True" else "False"
    case JNum(n) => if n < 0 then "-" + NatToDecimal(-n) else NatToDecimal(n)
    case JStr(s) => "'" + s + "'"
    case JArr(items) => "[" + ReprItems(v, items) + "]"
    case JObj(fields) => "{" + ReprFields(v, DictItems(fields)) + "}"
  }

  function ReprItems(parent: Json, items: seq<Json>): string
    requires forall x :: x in items ==> x < parent
    decreases parent, 0, |items|
  {
    if items == [] then ""
    else
      assert items[0] in items;
      assert forall x :: x in items[1..] ==> x in items;
      if |items| == 1 then Repr(items[0])
    else Repr(items[0]) + ", " + ReprItems(parent, items[1..])
  }

  function ReprFields(parent: Json, fields: seq<(string, Json)>): string
    requires forall f :: f in fields ==> f.1 < parent
    decreases parent, 0, |fields|
  {
    if fields == [] then ""
    else
      assert fields[0] in fields;
      assert forall f :: f in fields[1..] ==> f in fields;
      var entry := "'" + fields[0].0 + "': " + Repr(fields[0].1);
      if |fields| == 1 then entry else entry + ", " + ReprFields(parent, fields[1..])
  }

  /** The keys of the pairs, each once, in the order they first appear: a
      key listed before another occurs before every pair of the other. */
  function FirstKeys(fields: seq<(string, Json)>): (r: seq<string>)
    ensures forall key :: key in r <==> HasKey(fields, key)
    ensures forall a, b :: 0 <= a < b < |r| ==> r[a] != r[b]
    ensures forall a, b, k :: 0 <= a < b < |r| && 0 <= k < |fields| && fields[k].0 == r[b] ==>
      exists k' :: 0 <= k' < k && fields[k'].0 == r[a]
    decreases |fields|
  {
    if fields == [] then []
    else
      var front := fields[..|fields| - 1];
      var rf := FirstKeys(front);
      assert forall k :: 0 <= k < |front| ==> front[k] == fields[k];
      assert forall key :: HasKey(fields, key) <==> HasKey(front, key) || fields[|fields| - 1].0 == key;
      var key := fields[|fields| - 1].0;
      var r := if key in rf then rf else rf + [key];
      forall a, b, k | 0 <= a < b < |r| && 0 <= k < |fields| && fields[k].0 == r[b]
        ensures exists k' :: 0 <= k' < k && fields[k'].0 == r[a]
      {
        assert r[a] == rf[a] && rf[a] in rf;
        if k < |front| {
          assert front[k].0 == r[b];
          if b < |rf| {
            var k' :| 0 <= k' < k && front[k'].0 == rf[a];
            assert fields[k'].0 == r[a];
          }
        } else {
          var k' :| 0 <= k' < |front| && front[k'].0 == rf[a];
          assert fields[k'].0 == r[a];
        }
      }
      r
  }

  /** The items of the dict `json.loads` builds from the pairs: one entry per
      key, in the order the keys first appear, holding the value of the key's
      last pair. */
  function DictItems(fields: seq<(string, Json)>): (r: seq<(string, Json)>)
    ensures forall p :: p in r ==> p in fields && p.1 == Get(fields, p.0)
    ensures forall key :: HasKey(fields, key) <==> exists p :: p in r && p.0 == key
    ensures forall a, b :: 0 <= a < b < |r| ==> r[a].0 != r[b].0
    ensures |r| == |FirstKeys(fields)| && forall i :: 0 <= i < |r| ==> r[i].0 == FirstKeys(fields)[i]
  {
    var keys := FirstKeys(fields);
    var r := seq(|keys|, i requires 0 <= i < |keys| => (keys[i], Get(fields, keys[i])));
    assert forall p :: p in r ==> exists i :: 0 <= i < |keys| && p == r[i];
    forall key | HasKey(fields, key)
      ensures exists p :: p in r && p.0 == key
    {
      var i :| 0 <= i < |keys| && keys[i] == key;
      assert r[i] in r;
    }
    r
  }

  /** A key given twice prints once, with its last value. */
  lemma RepeatedKeyPrintsOnce()
    ensures Render(JObj([("a", JNum(1)), ("a", JNum(2))])) == "{'a': 2}"
  {
    var fields := [("a", JNum(1)), ("a", JNum(2))];
    RepeatedKeyItems();
    assert Repr(JNum(2)) == "2";
  }

  /** The dict built from two pairs with the same key has one item, holding the last value. */
  lemma RepeatedKeyItems()
    ensures DictItems([("a", JNum(1)), ("a", JNum(2))]) == [("a", JNum(2))]
  {
    var fields := [("a", JNum(1)), ("a", JNum(2))];
    var keys := FirstKeys(fields);
    assert keys[0] in keys;
    assert keys == ["a"] by {
      assert fields[..1][..0] == [];
      assert FirstKeys(fields[..1]) == ["a"];
      assert fields[..|fields| - 1] == fields[..1];
    }
    assert Get(fields, "a") == JNum(2);
  }
}
