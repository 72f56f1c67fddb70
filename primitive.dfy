/** The component helpers of apps/web/src/lib/primitive.ts: the props
    filter that drops undefined and null values, and how `cx` splits its
    arguments into class values and a trailing render value. */
module Primitive {
  import opened Results
  import opened Text
  import Js

  type Props = seq<(string, Js.Value)>

  /** Kept by the filter: neither `undefined` nor `null`. */
  predicate Defined(v: Js.Value) {
    v != Js.Undefined && v != Js.Null
  }

  /** `filterUndefinedProps`: the props' entries, in order, without the
      undefined and null ones. */
  function FilterUndefinedProps(props: Props): (r: Props)
    ensures |r| <= |props|
    ensures forall e :: e in r <==> e in props && Defined(e.1)
  {
    if |props| == 0 then []
    else
      var tail := FilterUndefinedProps(props[1..]);
      assert forall e :: e in props <==> e == props[0] || e in props[1..];
      if Defined(props[0].1) then [props[0]] + tail else tail
  }

  /** The filter works entry by entry, so it keeps the props' order. */
  lemma {:induction false} FilterAppend(a: Props, b: Props)
    ensures FilterUndefinedProps(a + b) == FilterUndefinedProps(a) + FilterUndefinedProps(b)
  {
    if |a| == 0 {
      assert a + b == b;
    } else {
      assert (a + b)[0] == a[0] && (a + b)[1..] == a[1..] + b;
      FilterAppend(a[1..], b);
    }
  }

  /** Filtering filtered props changes nothing. */
  lemma {:induction false} FilterIdempotent(props: Props)
    ensures FilterUndefinedProps(FilterUndefinedProps(props)) == FilterUndefinedProps(props)
  {
    if |props| > 0 {
      FilterIdempotent(props[1..]);
      if Defined(props[0].1) {
        var tail := FilterUndefinedProps(props[1..]);
        assert ([props[0]] + tail)[0] == props[0] && ([props[0]] + tail)[1..] == tail;
      }
    }
  }

  /** Other falsy values (`false`, `0`, the empty string) are kept: only
      undefined and null are "{undefined}" hazards. */
  lemma FalsyKept(props: Props, key: string, v: Js.Value)
    requires (key, v) in props && v in [Js.Bool(false), Js.Num(0), Js.Str("")]
    ensures (key, v) in FilterUndefinedProps(props) && !Js.Truthy(v)
  {
  }

  // ---------------------------------------------------------------------
  // cx

  /** A JavaScript array object, which `pop` changes in place. */
  class JsArray {
    var items: seq<Arg>

    constructor (items: seq<Arg>)
      ensures this.items == items
    {
      this.items := items;
    }

    /** `pop()`: removes and returns the last element, or `undefined` from
        an empty array. */
    method Pop() returns (last: Arg)
      modifies this
      ensures |old(items)| == 0 ==> last == Value(Js.Undefined) && items == old(items)
      ensures |old(items)| > 0 ==> last == Last(old(items)) && items == DropLast(old(items))
    {
      if |items| == 0 {
        return Value(Js.Undefined);
      }
      last := items[|items| - 1];
      items := items[..|items| - 1];
    }
  }

  /** An argument of `cx`: a plain value (a class string, a render string,
      undefined), a render function, named by identity, or an array. */
  datatype Arg = Value(v: Js.Value) | Function(name: string) | ArrayRef(a: JsArray)

  /** `cx` takes its arguments from the array when it is given exactly one
      array. */
  predicate ArrayForm(args: seq<Arg>) {
    |args| == 1 && args[0].ArrayRef?
  }

  /** The class values and the render value `cx` hands on to `twMerge` and
      `composeRenderProps`. `pop` works on the argument list itself, so in
      the array form the caller's array loses its last element. */
  method Cx(args: seq<Arg>) returns (className: Arg, tailwinds: seq<Arg>)
    modifies if ArrayForm(args) then {args[0].a} else {}
    ensures var resolved := if ArrayForm(args) then old(args[0].a.items) else args;
      (|resolved| == 0 ==> className == Value(Js.Undefined) && tailwinds == []) &&
      (|resolved| > 0 ==> className == Last(resolved) && tailwinds == DropLast(resolved))
    ensures ArrayForm(args) ==> args[0].a.items == tailwinds
  {
    var resolvedArgs: JsArray;
    if |args| == 1 && args[0].ArrayRef? {
      resolvedArgs := args[0].a;
    } else {
      resolvedArgs := new JsArray(args);
    }
    className := resolvedArgs.Pop();
    tailwinds := resolvedArgs.items;
  }
}
