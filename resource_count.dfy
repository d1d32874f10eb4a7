/** How the resource check counts the items a resource returned: a list
    counts its elements, an object its `cards` list, and anything else
    has no count. */
module ResourceCount {
  import opened JsValue

  /** `typeof v === 'object'`, which holds for null as well. */
  predicate TypeofObject(v: Value)
  {
    v.Null? || v.Arr? || v.Obj?
  }

  /** The `cards` property of an object, undefined for anything else. */
  function Cards(v: Value): Value
  {
    if v.Obj? then Get(v.props, "cards") else Undefined
  }

  /** `getCount(content)`. A list counts its own elements before anything
      else is looked at; an object counts its `cards` list; null, the
      primitives and objects without a `cards` list have no count. */
  function GetCount(content: Value): (r: Option<nat>)
    ensures content.Arr? ==> r == Some(|content.items|)
    ensures !content.Arr? && content.Obj? && Get(content.props, "cards").Arr? ==>
      r == Some(|Get(content.props, "cards").items|)
    ensures r.None? <==> !content.Arr? && !(content.Obj? && Get(content.props, "cards").Arr?)
  {
    if content.Arr? then Some(|content.items|)
    else if Truthy(content) && TypeofObject(content) && Cards(content).Arr? then Some(|Cards(content).items|)
    else None
  }

  /** Wrapping a list as the `cards` of an object keeps its count, and
      any object holding a list under `cards` counts like that list. */
  lemma CardsCountLikeTheList(items: seq<Value>, props: seq<Prop>)
    requires Get(props, "cards") == Arr(items)
    ensures GetCount(Obj(props)) == GetCount(Arr(items)) == Some(|items|)
  {
  }

  /** Null, numbers, strings, booleans and undefined have no count. */
  lemma ScalarsHaveNoCount(v: Value)
    requires v.Null? || v.Num? || v.Str? || v.Bool? || v.Undefined?
    ensures GetCount(v).None?
  {
  }
}
