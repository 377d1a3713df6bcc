/** Reply normalisation: `pickText` in pb-chat-widget.js and `pickAnswer` in
    src/widget.ts, which are the same function. */
module Normalize {
  import opened Json

  /** The value shown for a reply payload `d`. A falsy payload gives "",
      a string gives itself, an array gives the result for its first element
      (an empty array's `d[0]` is `undefined`, hence ""), and anything else is
      read as an object: the first truthy one of `output`, `text`, `response`,
      `answer`, then `data.output` / `data.text` when `data` is truthy, else "".
      Whatever truthy value is found is returned, string or not. */
  function PickText(d: Value): (r: Value)
    ensures r == Str("") || Truthy(r)
    ensures Truthy(r) ==> Truthy(d)
  {
    match d
    case Arr(items) =>
      if |items| == 0 then Str("") else PickText(items[0])
    case _ =>
      if !Truthy(d) then Str("")
      else if d.Str? then d
      else FromFields(d)
  }

  /** The object rule: the `||` chain over the known keys. */
  function FromFields(d: Value): Value {
    var data := Prop(d, "data");
    Or(Prop(d, "output"),
    Or(Prop(d, "text"),
    Or(Prop(d, "response"),
    Or(Prop(d, "answer"),
    Or(And(data, Or(Prop(data, "output"), Prop(data, "text"))),
    Str(""))))))
  }

  // ---------------------------------------------------------------------
  // An independent reference definition: the priority list written out.

  /** The candidate values of an object, in priority order. The two `data`
      candidates are consulted only when `data` itself is truthy. */
  function Candidates(d: Value): seq<Value> {
    var data := Prop(d, "data");
    [Prop(d, "output"), Prop(d, "text"), Prop(d, "response"), Prop(d, "answer")]
    + (if Truthy(data) then [Prop(data, "output"), Prop(data, "text")] else [])
  }

  /** The first truthy value of `vs`, or "" when there is none. */
  function FirstTruthy(vs: seq<Value>): (r: Value)
    ensures r == Str("") || r in vs
  {
    if vs == [] then Str("")
    else if Truthy(vs[0]) then vs[0]
    else FirstTruthy(vs[1..])
  }

  /** Where the array rule stops: follow first elements until a non-array;
      an empty array stands for `undefined`. */
  function Descend(d: Value): Value {
    match d
    case Arr(items) => if |items| == 0 then Null else Descend(items[0])
    case _ => d
  }

  /** The rules for a value that is not an array, written as a priority list. */
  function PickFlat(d: Value): Value {
    if !Truthy(d) then Str("")
    else if d.Str? then d
    else FirstTruthy(Candidates(d))
  }

  /** The object rule is exactly "first truthy candidate, else ''". */
  lemma FromFieldsIsFirstCandidate(d: Value)
    ensures FromFields(d) == FirstTruthy(Candidates(d))
  {
    var data := Prop(d, "data");
    OrChainIsFirstTruthy(Prop(d, "output"), Prop(d, "text"), Prop(d, "response"), Prop(d, "answer"),
                         data, Prop(data, "output"), Prop(data, "text"));
  }

  lemma OrChainIsFirstTruthy(o: Value, t: Value, r: Value, a: Value, data: Value, dout: Value, dtext: Value)
    ensures Or(o, Or(t, Or(r, Or(a, Or(And(data, Or(dout, dtext)), Str(""))))))
         == FirstTruthy([o, t, r, a] + (if Truthy(data) then [dout, dtext] else []))
  {
    var tail := if Truthy(data) then [dout, dtext] else [];
    FirstTruthyCons(dout, [dtext]);
    FirstTruthyCons(dtext, []);
    assert [dtext] + [] == [dtext];
    assert FirstTruthy(tail) == Or(And(data, Or(dout, dtext)), Str(""));
    FirstTruthyCons(a, tail);
    FirstTruthyCons(r, [a] + tail);
    FirstTruthyCons(t, [r] + ([a] + tail));
    FirstTruthyCons(o, [t] + ([r] + ([a] + tail)));
    assert [o, t, r, a] + tail == [o] + ([t] + ([r] + ([a] + tail)));
  }

  lemma FirstTruthyCons(x: Value, rest: seq<Value>)
    ensures FirstTruthy([x] + rest) == Or(x, FirstTruthy(rest))
  {
    assert ([x] + rest)[1..] == rest;
  }

  /** PickText agrees with the reference definition on every input: unwrap
      first elements, then apply the priority list. */
  lemma {:induction false} PickTextIsReference(d: Value)
    ensures PickText(d) == PickFlat(Descend(d))
  {
    match d
    case Arr(items) =>
      if |items| > 0 {
        PickTextIsReference(items[0]);
      }
    case _ =>
      if Truthy(d) && !d.Str? {
        FromFieldsIsFirstCandidate(d);
      }
  }

  /** Only the first element of an array is ever looked at. */
  lemma PickTextFirstElementOnly(x: Value, rest: seq<Value>, other: seq<Value>)
    ensures PickText(Arr([x] + rest)) == PickText(Arr([x] + other)) == PickText(x)
  {
  }

  /** The found value comes from the payload: it is "" or one of the
      candidates of the value the array rule stops at (a string stops
      there and is itself the answer). */
  lemma {:induction false} PickTextFromPayload(d: Value)
    ensures var r := PickText(d);
      r == Str("") || r == Descend(d) || r in Candidates(Descend(d))
  {
    PickTextIsReference(d);
  }

  // ---------------------------------------------------------------------
  // The reply shapes the widget is written for.

  lemma OutputReply()
    ensures PickText(Obj(map["output" := Str("hi there")])) == Str("hi there")
  {
  }

  lemma FirstOfArrayReply()
    ensures PickText(Arr([Obj(map["text" := Str("first")]), Obj(map["text" := Str("second")])])) == Str("first")
  {
  }

  lemma NestedDataReply()
    ensures PickText(Obj(map["data" := Obj(map["text" := Str("nested")])])) == Str("nested")
  {
  }

  /** Empty payload shapes give "". */
  lemma EmptyReplies()
    ensures PickText(Obj(map[])) == Str("")
    ensures PickText(Arr([])) == Str("")
    ensures PickText(Null) == Str("")
    ensures PickText(Obj(map["unrelated" := Str("x")])) == Str("")
  {
  }

  /** Priority: `output` wins over `text` even when both are present, and an
      empty `output` falls through to `text`. */
  lemma OutputBeforeText()
    ensures PickText(Obj(map["output" := Str("a"), "text" := Str("b")])) == Str("a")
    ensures PickText(Obj(map["output" := Str(""), "text" := Str("b")])) == Str("b")
  {
  }

  /** A truthy non-string field is returned as it is, despite the declared
      string result type. */
  lemma NonStringAnswer()
    ensures PickText(Obj(map["output" := Num(42.0)])) == Num(42.0)
  {
  }
}
