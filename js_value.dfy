/** JavaScript values as the server handles them: the JSON bodies of upstream
    replies, the arguments of tool calls and the records the tools build.
    Numbers are integers; object properties keep their insertion order, as
    JavaScript's string-keyed properties do. */
module JsValue {

  datatype Option<+T> = None | Some(value: T)

  datatype Value =
    | Undefined
    | Null
    | Bool(b: bool)
    | Num(n: int)
    | Str(s: string)
    | Arr(items: seq<Value>)
    | Obj(props: seq<Prop>)

  datatype Prop = Prop(key: string, val: Value)

  /** What a `throw` carries: an `Error` instance (or subclass) with its
      message, or any other value. */
  datatype Thrown = Error(message: string) | NonError(value: Value)

  /** The completion of a JavaScript call: a value, or an exception. */
  datatype Result<+T> = Ok(value: T) | Throw(error: Thrown)

  /** `error instanceof Error ? error.message : 'Unknown error'`, the idiom
      every catch block of the server uses. */
  function ErrorMessage(e: Thrown): (m: string)
    ensures e.Error? ==> m == e.message
    ensures e.NonError? ==> m == "Unknown error"
  {
    match e
    case Error(msg) => msg
    case NonError(_) => "Unknown error"
  }

  /** JavaScript truthiness. */
  predicate Truthy(v: Value)
  {
    match v
    case Undefined => false
    case Null => false
    case Bool(b) => b
    case Num(n) => n != 0
    case Str(s) => s != ""
    case Arr(_) => true
    case Obj(_) => true
  }

  /** An optional number argument as the value JavaScript sees. */
  function OptNum(o: Option<int>): Value
  {
    match o
    case None => Undefined
    case Some(n) => Num(n)
  }

  /** An optional string argument as the value JavaScript sees. */
  function OptStr(o: Option<string>): Value
  {
    match o
    case None => Undefined
    case Some(s) => Str(s)
  }

  /** Position of the property named `k`, or -1. */
  function IndexOf(props: seq<Prop>, k: string): (i: int)
    ensures -1 <= i < |props|
    ensures 0 <= i ==> props[i].key == k
    ensures 0 <= i ==> forall j :: 0 <= j < i ==> props[j].key != k
    ensures i < 0 ==> forall j :: 0 <= j < |props| ==> props[j].key != k
  {
    if |props| == 0 then -1
    else if props[0].key == k then 0
    else
      var i := IndexOf(props[1..], k);
      if i < 0 then -1 else i + 1
  }

  /** `k in obj` */
  predicate Has(props: seq<Prop>, k: string)
  {
    IndexOf(props, k) >= 0
  }

  /** `obj[k]`: the property's value, or undefined when it is absent. */
  function Get(props: seq<Prop>, k: string): (v: Value)
    ensures !Has(props, k) ==> v == Undefined
  {
    var i := IndexOf(props, k);
    if i < 0 then Undefined else props[i].val
  }

  /** No property name occurs twice, as in every JavaScript object. */
  predicate UniqueKeys(props: seq<Prop>)
  {
    forall i, j :: 0 <= i < j < |props| ==> props[i].key != props[j].key
  }

  /** In an object with distinct names, each property is found where it is. */
  lemma IndexOfDistinct(props: seq<Prop>, i: int)
    requires UniqueKeys(props) && 0 <= i < |props|
    ensures IndexOf(props, props[i].key) == i
  {
  }

  /** `obj[k] = v`: an existing property keeps its place, a new one is appended. */
  function Put(props: seq<Prop>, k: string, v: Value): (r: seq<Prop>)
    ensures Has(r, k) && Get(r, k) == v
    ensures forall k' :: k' != k ==> Has(r, k') == Has(props, k') && Get(r, k') == Get(props, k')
    ensures UniqueKeys(props) ==> UniqueKeys(r)
    ensures !Has(props, k) ==> r == props + [Prop(k, v)]
  {
    var i := IndexOf(props, k);
    if i >= 0 then
      var r := props[i := Prop(k, v)];
      assert forall k' :: IndexOf(r, k') == IndexOf(props, k') by {
        forall k' ensures IndexOf(r, k') == IndexOf(props, k') {
          IndexOfUpdate(props, i, v, k');
        }
      }
      r
    else
      var r := props + [Prop(k, v)];
      assert IndexOf(r, k) == |props| by { IndexOfAppend(props, Prop(k, v), k); }
      assert forall k' :: k' != k ==> IndexOf(r, k') == IndexOf(props, k') by {
        forall k' | k' != k ensures IndexOf(r, k') == IndexOf(props, k') {
          IndexOfAppend(props, Prop(k, v), k');
        }
      }
      r
  }

  lemma {:induction false} IndexOfUpdate(props: seq<Prop>, i: nat, v: Value, k': string)
    requires i < |props|
    ensures IndexOf(props[i := Prop(props[i].key, v)], k') == IndexOf(props, k')
  {
    if i > 0 {
      assert props[i := Prop(props[i].key, v)][1..] == props[1..][i - 1 := Prop(props[i].key, v)];
      IndexOfUpdate(props[1..], i - 1, v, k');
    }
  }

  lemma {:induction false} IndexOfAppend(props: seq<Prop>, p: Prop, k: string)
    ensures IndexOf(props + [p], k) ==
      if IndexOf(props, k) >= 0 then IndexOf(props, k)
      else if p.key == k then |props| else -1
  {
    if |props| > 0 {
      assert (props + [p])[1..] == props[1..] + [p];
      IndexOfAppend(props[1..], p, k);
    }
  }

  /** `{ ...props, ...extra }`: every property of `extra`, in order, put over `props`. */
  function Spread(props: seq<Prop>, extra: seq<Prop>): (r: seq<Prop>)
    ensures UniqueKeys(props) ==> UniqueKeys(r)
    decreases |extra|
  {
    if |extra| == 0 then props
    else Spread(Put(props, extra[0].key, extra[0].val), extra[1..])
  }

  /** After a spread, a property named in `extra` has `extra`'s value; any
      other keeps the value it had. */
  lemma {:induction false} SpreadGet(props: seq<Prop>, extra: seq<Prop>, k: string)
    requires UniqueKeys(extra)
    ensures Has(Spread(props, extra), k) == (Has(extra, k) || Has(props, k))
    ensures Get(Spread(props, extra), k) == if Has(extra, k) then Get(extra, k) else Get(props, k)
    decreases |extra|
  {
    if |extra| > 0 {
      var p := Put(props, extra[0].key, extra[0].val);
      assert UniqueKeys(extra[1..]);
      SpreadGet(p, extra[1..], k);
      if k == extra[0].key {
        assert IndexOf(extra, k) == 0;
        forall j | 0 <= j < |extra[1..]| ensures extra[1..][j].key != k {
          assert extra[1..][j] == extra[j + 1];
        }
        assert !Has(extra[1..], k);
      } else {
        var i := IndexOf(extra[1..], k);
        assert IndexOf(extra, k) == (if i < 0 then -1 else i + 1);
      }
    }
  }

  /** `const { [k]: _, ...rest } = obj`: every property but `k`, in order. */
  function Omit(props: seq<Prop>, k: string): (r: seq<Prop>)
    ensures !Has(r, k)
    ensures forall p :: p in r ==> p in props
    ensures UniqueKeys(props) ==> UniqueKeys(r)
  {
    if |props| == 0 then []
    else
      var rest := Omit(props[1..], k);
      if props[0].key == k then rest
      else
        var r := [props[0]] + rest;
        assert forall p :: p in r ==> p in props;
        assert UniqueKeys(props) ==> UniqueKeys(r) by {
          if UniqueKeys(props) {
            forall i, j | 0 <= i < j < |r| ensures r[i].key != r[j].key {
              if i == 0 {
                assert r[j] in props[1..];
                var m :| 0 <= m < |props[1..]| && props[1..][m] == r[j];
                assert props[m + 1] == r[j];
              } else {
                assert r[i] == rest[i - 1] && r[j] == rest[j - 1];
              }
            }
          }
        }
        assert IndexOf(r, k) < 0 by {
          assert IndexOf(r, k) == (if IndexOf(rest, k) < 0 then -1 else IndexOf(rest, k) + 1);
        }
        r
  }

  /** Omitting a key keeps every other property's value. */
  lemma {:induction false} OmitGet(props: seq<Prop>, k: string, k': string)
    requires UniqueKeys(props) && k' != k
    ensures Has(Omit(props, k), k') == Has(props, k')
    ensures Get(Omit(props, k), k') == Get(props, k')
  {
    if |props| > 0 {
      assert UniqueKeys(props[1..]);
      OmitGet(props[1..], k, k');
      var rest := Omit(props[1..], k);
      if props[0].key != k {
        var r := [props[0]] + rest;
        assert r[1..] == rest;
      }
      if props[0].key == k' {
        forall j | 0 <= j < |props[1..]| ensures props[1..][j].key != k' {
          assert props[1..][j] == props[j + 1];
        }
      }
    }
  }

  /** Property access `v.k` on any value: reading a property of null or
      undefined throws a TypeError; other non-objects have none of the
      properties the server reads. */
  function Member(v: Value, k: string): (r: Result<Value>)
    ensures r.Throw? <==> (v == Null || v == Undefined)
    ensures v.Obj? ==> r == Ok(Get(v.props, k))
  {
    match v
    case Undefined => Throw(Error("Cannot read properties of undefined (reading '" + k + "')"))
    case Null => Throw(Error("Cannot read properties of null (reading '" + k + "')"))
    case Obj(props) => Ok(Get(props, k))
    case _ => Ok(Undefined)
  }

  /** `v.length`: the item count of an array; a string's length is counted
      in characters; reading it from null or undefined throws. */
  function Length(v: Value): (r: Result<Value>)
    ensures r.Throw? <==> (v == Null || v == Undefined)
    ensures v.Arr? ==> r == Ok(Num(|v.items|))
  {
    match v
    case Arr(items) => Ok(Num(|items|))
    case Str(s) => Ok(Num(|s|))
    case Obj(props) => Ok(Get(props, "length"))
    case _ => Member(v, "length")
  }

  /** The record `{}` filled by `if (v !== undefined) params[k] = v` for each
      candidate field in turn: the defined fields, in order. */
  function Defined(fields: seq<Prop>): (r: seq<Prop>)
    ensures |r| <= |fields|
    ensures forall p :: p in r ==> p in fields && p.val != Undefined
  {
    if fields == [] then []
    else if fields[|fields| - 1].val == Undefined then Defined(fields[..|fields| - 1])
    else Defined(fields[..|fields| - 1]) + [fields[|fields| - 1]]
  }

  /** Filling in one more candidate field whose name is new: the record
      grows by that field when it has a value and stays as it was otherwise. */
  lemma DefinedExtend(fields: seq<Prop>, j: nat)
    requires j < |fields|
    requires forall i :: 0 <= i < j ==> fields[i].key != fields[j].key
    ensures Defined(fields[..j + 1]) ==
      if fields[j].val == Undefined then Defined(fields[..j]) else Put(Defined(fields[..j]), fields[j].key, fields[j].val)
  {
    var pre := fields[..j + 1];
    assert pre[..|pre| - 1] == fields[..j];
  }

  /** With distinct candidate names, the record holds exactly the fields
      that were given a value, each with that value. */
  lemma {:induction false} DefinedGet(fields: seq<Prop>, k: string)
    requires UniqueKeys(fields)
    ensures UniqueKeys(Defined(fields))
    ensures Has(Defined(fields), k) <==> Has(fields, k) && Get(fields, k) != Undefined
    ensures Get(Defined(fields), k) == Get(fields, k)
  {
    if fields != [] {
      var init := fields[..|fields| - 1];
      var last := fields[|fields| - 1];
      assert fields == init + [last];
      assert UniqueKeys(init);
      DefinedGet(init, k);
      DefinedGet(init, last.key);
      assert !Has(init, last.key);
      IndexOfAppend(init, last, k);
      if last.val == Undefined {
        assert Defined(fields) == Defined(init);
      } else {
        var d := Defined(init);
        assert Defined(fields) == d + [last];
        assert !Has(d, last.key);
        IndexOfAppend(d, last, k);
      }
    }
  }
}
