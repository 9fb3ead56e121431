/**
 Strict JSON inspection: the recursive inspectors that consume a decoder's token stream
 and reject repeated object keys and deep nesting, and the decoder that builds values and
 rejects repeated keys. They are specified on JSON trees (section 4 of RFC 8259).
 */
module StrictJson {
  import opened Options

  datatype Json = Scalar(text: string) | Text(text: string) | Array(items: seq<Json>) | Object(members: seq<Member>)

  datatype Member = Member(key: string, value: Json)

  /** What the decoder hands out: delimiters, strings (keys and values alike) and other scalars. */
  datatype Token = OpenObject | CloseObject | OpenArray | CloseArray | String(text: string) | Literal(text: string)

  function Tokens(t: Json): (ts: seq<Token>)
    ensures ts != [] && !ts[0].CloseObject? && !ts[0].CloseArray?
    decreases t, 1
  {
    match t
    case Scalar(text) => [Literal(text)]
    case Text(text) => [String(text)]
    case Array(items) => [OpenArray] + ItemTokens(items) + [CloseArray]
    case Object(members) => [OpenObject] + MemberTokens(members) + [CloseObject]
  }

  function ItemTokens(items: seq<Json>): seq<Token>
    decreases items, 0
  {
    if items == [] then [] else Tokens(items[0]) + ItemTokens(items[1..])
  }

  function MemberTokens(members: seq<Member>): seq<Token>
    decreases members, 0
  {
    if members == [] then [] else [String(members[0].key)] + Tokens(members[0].value) + MemberTokens(members[1..])
  }

  // ---------------------------------------------------------------------------
  // The properties that are checked, on trees

  predicate Unique(t: Json)
    decreases t, 1
  {
    match t
    case Scalar(_) => true
    case Text(_) => true
    case Array(items) => forall i | 0 <= i < |items| :: Unique(items[i])
    case Object(members) =>
      && (forall i | 0 <= i < |members| :: Unique(members[i].value))
      && forall i, j | 0 <= i < j < |members| :: members[i].key != members[j].key
  }

  /** No value lies deeper than `limit` when `t` itself lies at `depth`. */
  predicate Within(t: Json, depth: nat, limit: nat)
    decreases t
  {
    && depth <= limit
    && match t
       case Scalar(_) => true
       case Text(_) => true
       case Array(items) => forall i | 0 <= i < |items| :: Within(items[i], depth + 1, limit)
       case Object(members) => forall i | 0 <= i < |members| :: Within(members[i].value, depth + 1, limit)
  }

  // ---------------------------------------------------------------------------
  // The first fault in document order

  datatype Verdict = Fine | Duplicate | Invalid

  function Inspect(t: Json, depth: nat, limit: nat): Verdict
    decreases t, 1
  {
    if depth > limit then Invalid
    else
      match t
      case Scalar(_) => Fine
      case Text(_) => Fine
      case Array(items) => InspectItems(items, depth, limit)
      case Object(members) => InspectMembers(members, {}, depth, limit)
  }

  function InspectItems(items: seq<Json>, depth: nat, limit: nat): Verdict
    decreases items, 0
  {
    if items == [] then Fine
    else
      var first := Inspect(items[0], depth + 1, limit);
      if first.Fine? then InspectItems(items[1..], depth, limit) else first
  }

  function InspectMembers(members: seq<Member>, seen: set<string>, depth: nat, limit: nat): Verdict
    decreases members, 0
  {
    if members == [] then Fine
    else if members[0].key in seen then Duplicate
    else
      var first := Inspect(members[0].value, depth + 1, limit);
      if first.Fine? then InspectMembers(members[1..], seen + {members[0].key}, depth, limit) else first
  }

  /** The inspection accepts exactly the trees that repeat no key and stay within the limit. */
  lemma {:induction false} InspectExactly(t: Json, depth: nat, limit: nat)
    ensures Inspect(t, depth, limit).Fine? <==> Unique(t) && Within(t, depth, limit)
    decreases t, 1
  {
    if depth <= limit {
      match t
      case Scalar(_) =>
      case Text(_) =>
      case Array(items) => InspectItemsExactly(items, depth, limit);
      case Object(members) => InspectMembersExactly(members, {}, depth, limit);
    }
  }

  lemma {:induction false} InspectItemsExactly(items: seq<Json>, depth: nat, limit: nat)
    ensures InspectItems(items, depth, limit).Fine? <==>
              forall i | 0 <= i < |items| :: Unique(items[i]) && Within(items[i], depth + 1, limit)
    decreases items, 0
  {
    if items != [] {
      InspectExactly(items[0], depth + 1, limit);
      InspectItemsExactly(items[1..], depth, limit);
      assert forall i | 1 <= i < |items| :: items[i] == items[1..][i - 1];
    }
  }

  lemma {:induction false} InspectMembersExactly(members: seq<Member>, seen: set<string>, depth: nat, limit: nat)
    ensures InspectMembers(members, seen, depth, limit).Fine? <==>
              && (forall i | 0 <= i < |members| ::
                    Unique(members[i].value) && Within(members[i].value, depth + 1, limit))
              && (forall i | 0 <= i < |members| :: members[i].key !in seen)
              && (forall i, j | 0 <= i < j < |members| :: members[i].key != members[j].key)
    decreases members, 0
  {
    if members != [] {
      InspectExactly(members[0].value, depth + 1, limit);
      InspectMembersExactly(members[1..], seen + {members[0].key}, depth, limit);
      assert forall i | 1 <= i < |members| :: members[i] == members[1..][i - 1];
    }
  }

  /** What the stricter inspector accepts, the laxer one accepts too. */
  lemma {:induction false} LooserLimit(t: Json, depth: nat, strict: nat, lax: nat)
    requires strict <= lax && Within(t, depth, strict)
    ensures Within(t, depth, lax)
    decreases t
  {
    match t
    case Scalar(_) =>
    case Text(_) =>
    case Array(items) =>
      forall i | 0 <= i < |items| { LooserLimit(items[i], depth + 1, strict, lax); }
    case Object(members) =>
      forall i | 0 <= i < |members| { LooserLimit(members[i].value, depth + 1, strict, lax); }
  }

  // ---------------------------------------------------------------------------
  // The inspectors

  /** A decoder over the tokens of a well-formed document. */
  class Decoder {
    const tokens: seq<Token>
    var pos: nat

    constructor (tokens: seq<Token>)
      ensures this.tokens == tokens && pos == 0
    {
      this.tokens := tokens;
      this.pos := 0;
    }

    ghost predicate At(rest: seq<Token>)
      reads this
    {
      pos <= |tokens| && tokens[pos..] == rest
    }

    method Next() returns (t: Option<Token>)
      requires pos <= |tokens|
      modifies this
      ensures pos <= |tokens|
      ensures old(pos) == |tokens| ==> t.None? && pos == old(pos)
      ensures old(pos) < |tokens| ==>
                t == Some(tokens[old(pos)]) && pos == old(pos) + 1 && tokens[pos..] == old(tokens[pos..])[1..]
    {
      if pos == |tokens| {
        return None;
      }
      t := Some(tokens[pos]);
      pos := pos + 1;
    }

    /** Whether the current array or object has another element. */
    method More() returns (b: bool)
      requires pos <= |tokens|
      ensures b <==> pos < |tokens| && !tokens[pos].CloseObject? && !tokens[pos].CloseArray?
    {
      b := pos < |tokens| && !tokens[pos].CloseObject? && !tokens[pos].CloseArray?;
    }
  }

  /** What the stream holds inside an object, and inside an array, of which these are left. */
  function ObjectRest(members: seq<Member>, rest: seq<Token>): seq<Token> {
    MemberTokens(members) + ([CloseObject] + rest)
  }

  function ArrayRest(items: seq<Json>, rest: seq<Token>): seq<Token> {
    ItemTokens(items) + ([CloseArray] + rest)
  }

  lemma {:induction false} ObjectRestStep(members: seq<Member>, rest: seq<Token>)
    ensures ObjectRest(members, rest) != []
    ensures members == [] ==> ObjectRest(members, rest)[0] == CloseObject && ObjectRest(members, rest)[1..] == rest
    ensures members != [] ==> ObjectRest(members, rest)[0] == String(members[0].key)
    ensures members != [] ==>
              ObjectRest(members, rest)[1..] == Tokens(members[0].value) + ObjectRest(members[1..], rest)
  {
  }

  lemma {:induction false} ArrayRestStep(items: seq<Json>, rest: seq<Token>)
    ensures ArrayRest(items, rest) != []
    ensures items == [] ==> ArrayRest(items, rest)[0] == CloseArray && ArrayRest(items, rest)[1..] == rest
    ensures items != [] ==> ArrayRest(items, rest) == Tokens(items[0]) + ArrayRest(items[1..], rest)
    ensures items != [] ==> !ArrayRest(items, rest)[0].CloseArray? && !ArrayRest(items, rest)[0].CloseObject?
  {
  }

  /** Consumes one value. `t` and `rest` say what the stream holds: the tokens of `t`, then `rest`. */
  method InspectValue(d: Decoder, depth: nat, limit: nat, ghost t: Json, ghost rest: seq<Token>) returns (v: Verdict)
    requires d.At(Tokens(t) + rest)
    modifies d
    ensures v == Inspect(t, depth, limit)
    ensures d.pos <= |d.tokens| && (v.Fine? ==> d.At(rest))
    decreases |d.tokens| - d.pos, 1
  {
    if depth > limit {
      return Invalid;
    }
    var token := d.Next();
    if token.None? {
      return Invalid;
    }
    match token.value
    case OpenObject =>
      v := InspectObject(d, depth, limit, t.members, rest);
    case OpenArray =>
      v := InspectArray(d, depth, limit, t.items, rest);
    case _ =>
      v := Fine;
  }

  method InspectObject(d: Decoder, depth: nat, limit: nat, ghost members: seq<Member>, ghost rest: seq<Token>)
    returns (v: Verdict)
    requires depth <= limit && d.At(ObjectRest(members, rest))
    modifies d
    ensures v == InspectMembers(members, {}, depth, limit)
    ensures d.pos <= |d.tokens| && (v.Fine? ==> d.At(rest))
    decreases |d.tokens| - d.pos, 2
  {
    var seen: set<string> := {};
    ghost var left := members;
    ObjectRestStep(left, rest);
    var more := d.More();
    while more
      invariant d.At(ObjectRest(left, rest))
      invariant InspectMembers(members, {}, depth, limit) == InspectMembers(left, seen, depth, limit)
      invariant more <==> left != []
      invariant old(d.pos) <= d.pos
      decreases |d.tokens| - d.pos
    {
      ObjectRestStep(left, rest);
      var key := d.Next();
      if key.None? || !key.value.String? {
        return Invalid;
      }
      if key.value.text in seen {
        return Duplicate;
      }
      seen := seen + {key.value.text};
      var inner := InspectValue(d, depth + 1, limit, left[0].value, ObjectRest(left[1..], rest));
      if !inner.Fine? {
        return inner;
      }
      left := left[1..];
      ObjectRestStep(left, rest);
      more := d.More();
    }
    ObjectRestStep(left, rest);
    var closing := d.Next();
    v := Fine;
  }

  method InspectArray(d: Decoder, depth: nat, limit: nat, ghost items: seq<Json>, ghost rest: seq<Token>)
    returns (v: Verdict)
    requires depth <= limit && d.At(ArrayRest(items, rest))
    modifies d
    ensures v == InspectItems(items, depth, limit)
    ensures d.pos <= |d.tokens| && (v.Fine? ==> d.At(rest))
    decreases |d.tokens| - d.pos, 2
  {
    ghost var left := items;
    ArrayRestStep(left, rest);
    var more := d.More();
    while more
      invariant d.At(ArrayRest(left, rest))
      invariant InspectItems(items, depth, limit) == InspectItems(left, depth, limit)
      invariant more <==> left != []
      invariant old(d.pos) <= d.pos
      decreases |d.tokens| - d.pos
    {
      ArrayRestStep(left, rest);
      var inner := InspectValue(d, depth + 1, limit, left[0], ArrayRest(left[1..], rest));
      if !inner.Fine? {
        return inner;
      }
      left := left[1..];
      ArrayRestStep(left, rest);
      more := d.More();
    }
    ArrayRestStep(left, rest);
    var closing := d.Next();
    v := Fine;
  }

  const MAX_DEPTH := 64
  const MAX_REQUEST_DEPTH := 32

  /** Accepts exactly one value: the stream of `t`, followed by whatever `rest` is, must end after `t`. */
  method ValidateWithin(tokens: seq<Token>, limit: nat, ghost t: Json, ghost rest: seq<Token>) returns (v: Verdict)
    requires tokens == Tokens(t) + rest
    ensures v.Fine? <==> Unique(t) && Within(t, 0, limit) && rest == []
    ensures v.Duplicate? <==> Inspect(t, 0, limit).Duplicate?
  {
    var d := new Decoder(tokens);
    assert d.At(Tokens(t) + rest);
    v := InspectValue(d, 0, limit, t, rest);
    InspectExactly(t, 0, limit);
    if v.Fine? && d.pos != |tokens| {
      v := Invalid;
    }
  }

  /** The general inspector. */
  method Validate(tokens: seq<Token>, ghost t: Json, ghost rest: seq<Token>) returns (v: Verdict)
    requires tokens == Tokens(t) + rest
    ensures v.Fine? <==> Unique(t) && Within(t, 0, MAX_DEPTH) && rest == []
  {
    v := ValidateWithin(tokens, MAX_DEPTH, t, rest);
  }

  /** The inspector of apply requests and responses; whatever it accepts, the general one accepts. */
  method InspectFields(tokens: seq<Token>, ghost t: Json, ghost rest: seq<Token>) returns (v: Verdict)
    requires tokens == Tokens(t) + rest
    ensures v.Fine? <==> Unique(t) && Within(t, 0, MAX_REQUEST_DEPTH) && rest == []
    ensures v.Fine? ==> Unique(t) && Within(t, 0, MAX_DEPTH)
  {
    v := ValidateWithin(tokens, MAX_REQUEST_DEPTH, t, rest);
    if v.Fine? {
      LooserLimit(t, 0, MAX_REQUEST_DEPTH, MAX_DEPTH);
    }
  }

  // ---------------------------------------------------------------------------
  // The decoder that builds values

  datatype Value = ScalarValue(text: string) | TextValue(text: string) | ArrayValue(items: seq<Value>)
      | ObjectValue(fields: map<string, Value>)

  /** The value of a tree; a repeated key leaves no value. */
  function Decode(t: Json): Option<Value>
    decreases t, 1
  {
    match t
    case Scalar(text) => Some(ScalarValue(text))
    case Text(text) => Some(TextValue(text))
    case Array(items) =>
      var vs := DecodeItems(items, []);
      if vs.Some? then Some(ArrayValue(vs.value)) else None
    case Object(members) =>
      var fs := DecodeMembers(members, map[]);
      if fs.Some? then Some(ObjectValue(fs.value)) else None
  }

  function DecodeItems(items: seq<Json>, values: seq<Value>): Option<seq<Value>>
    decreases items, 0
  {
    if items == [] then Some(values)
    else
      var first := Decode(items[0]);
      if first.None? then None else DecodeItems(items[1..], values + [first.value])
  }

  function DecodeMembers(members: seq<Member>, fields: map<string, Value>): Option<map<string, Value>>
    decreases members, 0
  {
    if members == [] then Some(fields)
    else if members[0].key in fields then None
    else
      var first := Decode(members[0].value);
      if first.None? then None else DecodeMembers(members[1..], fields[members[0].key := first.value])
  }

  /** Decoding succeeds exactly on trees without repeated keys. */
  lemma {:induction false} DecodeExactly(t: Json)
    ensures Decode(t).Some? <==> Unique(t)
    decreases t, 1
  {
    match t
    case Scalar(_) =>
    case Text(_) =>
    case Array(items) => DecodeItemsExactly(items, []);
    case Object(members) => DecodeMembersExactly(members, map[]);
  }

  lemma {:induction false} DecodeItemsExactly(items: seq<Json>, values: seq<Value>)
    ensures DecodeItems(items, values).Some? <==> forall i | 0 <= i < |items| :: Unique(items[i])
    ensures DecodeItems(items, values).Some? ==>
              var r := DecodeItems(items, values).value;
              && |r| == |values| + |items| && values <= r
              && forall i | 0 <= i < |items| :: Decode(items[i]) == Some(r[|values| + i])
    decreases items, 0
  {
    if items != [] {
      DecodeExactly(items[0]);
      assert forall i | 1 <= i < |items| :: items[i] == items[1..][i - 1];
      if Decode(items[0]).Some? {
        DecodeItemsExactly(items[1..], values + [Decode(items[0]).value]);
      }
    }
  }

  lemma {:induction false} DecodeMembersExactly(members: seq<Member>, fields: map<string, Value>)
    ensures DecodeMembers(members, fields).Some? <==>
              && (forall i | 0 <= i < |members| :: Unique(members[i].value) && members[i].key !in fields)
              && (forall i, j | 0 <= i < j < |members| :: members[i].key != members[j].key)
    decreases members, 0
  {
    if members != [] {
      DecodeExactly(members[0].value);
      assert forall i | 1 <= i < |members| :: members[i] == members[1..][i - 1];
      if members[0].key !in fields && Decode(members[0].value).Some? {
        DecodeMembersExactly(members[1..], fields[members[0].key := Decode(members[0].value).value]);
      }
    }
  }

  /** No member is lost and none is invented. */
  lemma {:induction false} DecodeMembersKeep(members: seq<Member>, fields: map<string, Value>)
    requires DecodeMembers(members, fields).Some?
    ensures var r := DecodeMembers(members, fields).value;
            && (forall k :: k in r <==> k in fields || exists i :: 0 <= i < |members| && members[i].key == k)
            && (forall k | k in fields :: k in r && r[k] == fields[k])
            && (forall i | 0 <= i < |members| ::
                  members[i].key in r && Decode(members[i].value) == Some(r[members[i].key]))
    decreases |members|
  {
    if members != [] {
      var more := fields[members[0].key := Decode(members[0].value).value];
      DecodeMembersKeep(members[1..], more);
      KeysOfMembers(members, fields, more);
      assert forall i | 1 <= i < |members| :: members[i] == members[1..][i - 1];
    }
  }

  lemma KeysOfMembers(members: seq<Member>, fields: map<string, Value>, more: map<string, Value>)
    requires members != [] && more.Keys == fields.Keys + {members[0].key}
    requires DecodeMembers(members[1..], more).Some? &&
             DecodeMembers(members, fields) == DecodeMembers(members[1..], more)
    requires var r := DecodeMembers(members[1..], more).value;
             forall k :: k in r <==> k in more || exists i :: 0 <= i < |members[1..]| && members[1..][i].key == k
    ensures var r := DecodeMembers(members, fields).value;
            forall k :: k in r <==> k in fields || exists i :: 0 <= i < |members| && members[i].key == k
  {
    var r := DecodeMembers(members, fields).value;
    forall k
      ensures k in r <==> k in fields || exists i :: 0 <= i < |members| && members[i].key == k
    {
      if i :| 0 <= i < |members[1..]| && members[1..][i].key == k {
        assert members[i + 1].key == k;
      }
      if k == members[0].key {
        assert 0 < |members| && members[0].key == k;
      }
      if i :| 0 <= i < |members| && members[i].key == k {
        if i > 0 {
          assert members[1..][i - 1].key == k;
        }
      }
    }
  }

  /** The decoded object has exactly one field per member, with the member's own value. */
  lemma DecodeLosesNothing(members: seq<Member>)
    requires Unique(Object(members))
    ensures var v := Decode(Object(members));
            && v.Some? && v.value.ObjectValue?
            && (forall k :: k in v.value.fields <==> exists i :: 0 <= i < |members| && members[i].key == k)
            && (forall i | 0 <= i < |members| :: members[i].key in v.value.fields &&
                  Decode(members[i].value) == Some(v.value.fields[members[i].key]))
  {
    DecodeExactly(Object(members));
    DecodeMembersKeep(members, map[]);
  }

  method DecodeValue(d: Decoder, ghost t: Json, ghost rest: seq<Token>) returns (v: Option<Value>)
    requires d.At(Tokens(t) + rest)
    modifies d
    ensures v == Decode(t)
    ensures d.pos <= |d.tokens| && (v.Some? ==> d.At(rest))
    decreases |d.tokens| - d.pos, 1
  {
    var token := d.Next();
    if token.None? {
      return None;
    }
    match token.value
    case OpenObject =>
      v := DecodeObject(d, t.members, rest);
    case OpenArray =>
      v := DecodeArray(d, t.items, rest);
    case String(text) =>
      v := Some(TextValue(text));
    case Literal(text) =>
      v := Some(ScalarValue(text));
    case _ =>
      v := None;
  }

  method DecodeObject(d: Decoder, ghost members: seq<Member>, ghost rest: seq<Token>) returns (v: Option<Value>)
    requires d.At(ObjectRest(members, rest))
    modifies d
    ensures v == Decode(Object(members))
    ensures d.pos <= |d.tokens| && (v.Some? ==> d.At(rest))
    decreases |d.tokens| - d.pos, 2
  {
    var fields: map<string, Value> := map[];
    ghost var left := members;
    ObjectRestStep(left, rest);
    var more := d.More();
    while more
      invariant d.At(ObjectRest(left, rest))
      invariant DecodeMembers(members, map[]) == DecodeMembers(left, fields)
      invariant more <==> left != []
      invariant old(d.pos) <= d.pos
      decreases |d.tokens| - d.pos
    {
      ObjectRestStep(left, rest);
      var key := d.Next();
      if key.None? || !key.value.String? || key.value.text in fields {
        return None;
      }
      var inner := DecodeValue(d, left[0].value, ObjectRest(left[1..], rest));
      if inner.None? {
        return None;
      }
      fields := fields[key.value.text := inner.value];
      left := left[1..];
      ObjectRestStep(left, rest);
      more := d.More();
    }
    ObjectRestStep(left, rest);
    var closing := d.Next();
    if closing != Some(CloseObject) {
      return None;
    }
    v := Some(ObjectValue(fields));
  }

  method DecodeArray(d: Decoder, ghost items: seq<Json>, ghost rest: seq<Token>) returns (v: Option<Value>)
    requires d.At(ArrayRest(items, rest))
    modifies d
    ensures v == Decode(Array(items))
    ensures d.pos <= |d.tokens| && (v.Some? ==> d.At(rest))
    decreases |d.tokens| - d.pos, 2
  {
    var values: seq<Value> := [];
    ghost var left := items;
    ArrayRestStep(left, rest);
    var more := d.More();
    while more
      invariant d.At(ArrayRest(left, rest))
      invariant DecodeItems(items, []) == DecodeItems(left, values)
      invariant more <==> left != []
      invariant old(d.pos) <= d.pos
      decreases |d.tokens| - d.pos
    {
      ArrayRestStep(left, rest);
      var inner := DecodeValue(d, left[0], ArrayRest(left[1..], rest));
      if inner.None? {
        return None;
      }
      values := values + [inner.value];
      left := left[1..];
      ArrayRestStep(left, rest);
      more := d.More();
    }
    ArrayRestStep(left, rest);
    var closing := d.Next();
    if closing != Some(CloseArray) {
      return None;
    }
    v := Some(ArrayValue(values));
  }

  /** Decodes exactly one document without repeated keys. */
  method DecodeStrictJson(tokens: seq<Token>, ghost t: Json, ghost rest: seq<Token>) returns (v: Option<Value>)
    requires tokens == Tokens(t) + rest
    ensures v.Some? <==> Unique(t) && rest == []
    ensures v.Some? ==> v == Decode(t)
  {
    var d := new Decoder(tokens);
    assert d.At(Tokens(t) + rest);
    v := DecodeValue(d, t, rest);
    DecodeExactly(t);
    if v.Some? && d.pos != |tokens| {
      v := None;
    }
  }
}
