/**
 Counting the inputs of an embeddings request by streaming its JSON tokens, against
 what the request means as a JSON value (sections 2 to 5 of RFC 8259).
 */
module EmbeddingInputs {
  import opened Budget
  import opened Wrappers

  datatype Json =
    | Null
    | Bool(b: bool)
    | Number
    | String(s: string)
    | Array(items: seq<Json>)
    | Object(fields: seq<Field>)

  datatype Field = Field(name: string, value: Json)

  /** What the token decoder yields: delimiters and scalars; an object's names arrive as
      string tokens, commas and colons not at all. */
  datatype Token = Delim(c: char) | StringToken | NumberToken | BoolToken | NullToken

  function Tokens(v: Json): (ts: seq<Token>)
    ensures ts != []
  {
    match v
    case Null => [NullToken]
    case Bool(_) => [BoolToken]
    case Number => [NumberToken]
    case String(_) => [StringToken]
    case Array(items) => [Delim('[')] + TokensOfAll(items) + [Delim(']')]
    case Object(fields) => [Delim('{')] + TokensOfFields(fields) + [Delim('}')]
  }

  function TokensOfAll(items: seq<Json>): seq<Token> {
    if items == [] then [] else Tokens(items[0]) + TokensOfAll(items[1..])
  }

  function TokensOfFields(fields: seq<Field>): seq<Token> {
    if fields == [] then [] else [StringToken] + Tokens(fields[0].value) + TokensOfFields(fields[1..])
  }

  predicate Opens(t: Token) { t == Delim('[') || t == Delim('{') }
  predicate Closes(t: Token) { t == Delim(']') || t == Delim('}') }

  // ---------------------------------------------------------------- the decoder

  class Decoder {
    const tokens: seq<Token>
    var pos: nat

    constructor (ts: seq<Token>)
      ensures Valid() && Rest() == ts
    {
      tokens, pos := ts, 0;
    }

    predicate Valid()
      reads this
    {
      pos <= |tokens|
    }

    /** The tokens not yet read. */
    function Rest(): seq<Token>
      requires Valid()
      reads this
    {
      tokens[pos..]
    }

    /** The next token, or nothing at the end of the input. */
    method Next() returns (t: Option<Token>)
      requires Valid()
      modifies this
      ensures Valid()
      ensures t == (if old(Rest()) == [] then None else Some(old(Rest())[0]))
      ensures Rest() == (if old(Rest()) == [] then [] else old(Rest())[1..])
    {
      if pos == |tokens| {
        return None;
      }
      pos := pos + 1;
      return Some(tokens[pos - 1]);
    }

    /** Whether the current array or object has another element. */
    method More() returns (b: bool)
      requires Valid()
      ensures b <==> Rest() != [] && !Closes(Rest()[0])
    {
      b := pos < |tokens| && !Closes(tokens[pos]);
    }
  }

  // ---------------------------------------------------------------- skipping a nested value

  /** What is left once `depth` open brackets have been closed; nothing if the tokens run out. */
  function SkipTo(ts: seq<Token>, depth: nat): Option<seq<Token>>
    decreases |ts|
  {
    if depth == 0 then Some(ts)
    else if ts == [] then None
    else SkipTo(ts[1..], if Opens(ts[0]) then depth + 1 else if Closes(ts[0]) then depth - 1 else depth)
  }

  /** Reads tokens until the bracket already opened is closed. */
  method SkipRest(dec: Decoder) returns (ok: bool)
    requires dec.Valid()
    modifies dec
    ensures dec.Valid()
    ensures ok <==> SkipTo(old(dec.Rest()), 1).Some?
    ensures ok ==> Some(dec.Rest()) == SkipTo(old(dec.Rest()), 1)
  {
    var depth := 1;
    while depth > 0
      invariant dec.Valid() && depth >= 0
      invariant SkipTo(dec.Rest(), depth) == SkipTo(old(dec.Rest()), 1)
      decreases |dec.Rest()|, depth
    {
      var t := dec.Next();
      if t.None? {
        return false;
      }
      if Opens(t.value) {
        depth := depth + 1;
      } else if Closes(t.value) {
        depth := depth - 1;
      }
    }
    return true;
  }

  lemma SkipScalar(t: Token, tail: seq<Token>, depth: nat)
    requires depth >= 1 && !Opens(t) && !Closes(t)
    ensures SkipTo([t] + tail, depth) == SkipTo(tail, depth)
  {
    assert ([t] + tail)[1..] == tail;
  }

  lemma SkipOpening(t: Token, ts: seq<Token>, depth: nat)
    requires depth >= 1 && Opens(t)
    ensures SkipTo([t] + ts, depth) == SkipTo(ts, depth + 1)
  {
    assert ([t] + ts)[1..] == ts;
  }

  lemma SkipClosing(t: Token, ts: seq<Token>, depth: nat)
    requires depth >= 1 && Closes(t)
    ensures SkipTo([t] + ts, depth) == SkipTo(ts, depth - 1)
  {
    assert ([t] + ts)[1..] == ts;
  }

  lemma BracketedTokens(open: Token, inner: seq<Token>, close: Token, tail: seq<Token>)
    ensures [open] + inner + [close] + tail == [open] + (inner + ([close] + tail))
  {
  }

  /** Scanning at any depth passes over a whole value and nothing more. */
  lemma {:induction false} SkipPassesValue(v: Json, tail: seq<Token>, depth: nat)
    requires depth >= 1
    ensures SkipTo(Tokens(v) + tail, depth) == SkipTo(tail, depth)
    decreases v, 1
  {
    hide SkipTo, TokensOfAll, TokensOfFields;
    match v
    case Null => SkipScalar(NullToken, tail, depth);
    case Bool(_) => SkipScalar(BoolToken, tail, depth);
    case Number => SkipScalar(NumberToken, tail, depth);
    case String(_) => SkipScalar(StringToken, tail, depth);
    case Array(items) =>
      BracketedTokens(Delim('['), TokensOfAll(items), Delim(']'), tail);
      SkipOpening(Delim('['), TokensOfAll(items) + ([Delim(']')] + tail), depth);
      SkipPassesAll(items, [Delim(']')] + tail, depth + 1);
      SkipClosing(Delim(']'), tail, depth + 1);
    case Object(fields) =>
      BracketedTokens(Delim('{'), TokensOfFields(fields), Delim('}'), tail);
      SkipOpening(Delim('{'), TokensOfFields(fields) + ([Delim('}')] + tail), depth);
      SkipPassesFields(fields, [Delim('}')] + tail, depth + 1);
      SkipClosing(Delim('}'), tail, depth + 1);
  }

  lemma {:induction false} SkipPassesAll(items: seq<Json>, tail: seq<Token>, depth: nat)
    requires depth >= 1
    ensures SkipTo(TokensOfAll(items) + tail, depth) == SkipTo(tail, depth)
    decreases items, 0
  {
    if items == [] {
      assert TokensOfAll(items) + tail == tail;
    } else {
      assert TokensOfAll(items) + tail == Tokens(items[0]) + (TokensOfAll(items[1..]) + tail);
      SkipPassesValue(items[0], TokensOfAll(items[1..]) + tail, depth);
      SkipPassesAll(items[1..], tail, depth);
    }
  }

  lemma {:induction false} SkipPassesFields(fields: seq<Field>, tail: seq<Token>, depth: nat)
    requires depth >= 1
    ensures SkipTo(TokensOfFields(fields) + tail, depth) == SkipTo(tail, depth)
    decreases fields, 0
  {
    if fields == [] {
      assert TokensOfFields(fields) + tail == tail;
    } else {
      var more := TokensOfFields(fields[1..]) + tail;
      assert TokensOfFields(fields) + tail == [StringToken] + (Tokens(fields[0].value) + more);
      assert (TokensOfFields(fields) + tail)[1..] == Tokens(fields[0].value) + more;
      SkipPassesValue(fields[0].value, more, depth);
      SkipPassesFields(fields[1..], tail, depth);
    }
  }

  /** Once a nested value's opening bracket has been read, skipping consumes exactly the
      remainder of that value, at whatever depth its contents nest. */
  lemma SkipConsumesExactlyOneValue(v: Json, tail: seq<Token>)
    requires v.Array? || v.Object?
    ensures SkipTo((Tokens(v) + tail)[1..], 1) == Some(tail)
  {
    var ts := Tokens(v) + tail;
    if v.Array? {
      var rest := [Delim(']')] + tail;
      assert ts[1..] == TokensOfAll(v.items) + rest;
      SkipPassesAll(v.items, rest, 1);
      assert rest[1..] == tail;
    } else {
      var rest := [Delim('}')] + tail;
      assert ts[1..] == TokensOfFields(v.fields) + rest;
      SkipPassesFields(v.fields, rest, 1);
      assert rest[1..] == tail;
    }
  }

  // ---------------------------------------------------------------- counting

  const MAX_ELEMENTS: nat := 100_000

  datatype InputError = InvalidInput | InputTooLarge

  /** The position of the first element that is not a number, or the length. */
  function FirstOther(items: seq<Json>): nat {
    if items == [] || !items[0].Number? then 0 else 1 + FirstOther(items[1..])
  }

  predicate AllNumbers(items: seq<Json>) {
    forall i | 0 <= i < |items| :: items[i].Number?
  }

  lemma {:induction false} FirstOtherIsFirst(items: seq<Json>)
    ensures FirstOther(items) <= |items|
    ensures forall i | 0 <= i < FirstOther(items) :: items[i].Number?
    ensures FirstOther(items) < |items| ==> !items[FirstOther(items)].Number?
  {
    if items != [] && items[0].Number? {
      FirstOtherIsFirst(items[1..]);
      forall i | 0 <= i < FirstOther(items) ensures items[i].Number? {
        if i > 0 {
          assert items[i] == items[1..][i - 1];
        }
      }
    }
  }

  /** The element count at which streaming stops early: past the limit, with something
      other than a number seen. */
  function EarlyStop(items: seq<Json>, limit: int): int {
    if FirstOther(items) + 1 > limit + 1 then FirstOther(items) + 1 else limit + 1
  }

  /** What counting a top-level array yields, whole array in view. */
  function ArrayOutcome(items: seq<Json>, limit: int): Result<nat, InputError> {
    var stop := EarlyStop(items, limit);
    if FirstOther(items) < |items| && stop <= |items| && stop <= MAX_ELEMENTS then Ok(stop)
    else if |items| > MAX_ELEMENTS then Err(InputTooLarge)
    else if items != [] && FirstOther(items) == |items| then Ok(1)
    else Ok(|items|)
  }

  function InputOutcome(input: Option<Json>, limit: int): Result<nat, InputError> {
    match input
    case Some(String(_)) => Ok(1)
    case Some(Array(items)) => ArrayOutcome(items, limit)
    case _ => Err(InvalidInput)
  }

  /** Reading one element past the cap. */
  lemma TooManyElements(items: seq<Json>, limit: int, count: nat)
    requires MAX_ELEMENTS < count <= |items| && count - 1 <= MAX_ELEMENTS
    requires FirstOther(items) < count - 1 ==> count - 1 <= limit
    ensures ArrayOutcome(items, limit) == Err(InputTooLarge)
  {
    hide FirstOther;
  }

  /** Past the limit, with something other than a number seen, for the first time. */
  lemma StoppedEarly(items: seq<Json>, limit: int, count: nat)
    requires 0 < count <= |items| && count <= MAX_ELEMENTS && FirstOther(items) < count && count > limit
    requires FirstOther(items) < count - 1 ==> count - 1 <= limit
    ensures ArrayOutcome(items, limit) == Ok(count)
  {
    hide FirstOther;
  }

  /** The closing bracket reached. */
  lemma ReachedTheEnd(items: seq<Json>, limit: int)
    requires |items| <= MAX_ELEMENTS && FirstOther(items) <= |items|
    requires FirstOther(items) < |items| ==> |items| <= limit
    ensures ArrayOutcome(items, limit) == if items != [] && FirstOther(items) == |items| then Ok(1) else Ok(|items|)
  {
    hide FirstOther;
  }

  /** Whether only numbers have been seen after one more element. */
  lemma OneMoreSeen(items: seq<Json>, count: nat)
    requires count < |items|
    ensures FirstOther(items) >= count + 1 <==> FirstOther(items) >= count && items[count].Number?
  {
    FirstOtherIsFirst(items);
  }

  /** Reads one whole element, and tells whether it is a number; nothing if the tokens end. */
  method ReadElement(dec: Decoder, ghost v: Json, ghost tail: seq<Token>) returns (number: Option<bool>)
    requires dec.Valid() && dec.Rest() == Tokens(v) + tail
    modifies dec
    ensures dec.Valid() && dec.Rest() == tail && number == Some(v.Number?)
  {
    var el := dec.Next();
    if el.None? {
      return None;
    }
    match el.value {
      case Delim(_) =>
        SkipConsumesExactlyOneValue(v, tail);
        var ok := SkipRest(dec);
        if !ok {
          return None;
        }
        return Some(false);
      case NumberToken =>
        return Some(true);
      case _ =>
        return Some(false);
    }
  }

  method CountArrayInputs(dec: Decoder, limit: int, ghost items: seq<Json>) returns (r: Result<nat, InputError>)
    requires dec.Valid() && dec.Rest() == TokensOfAll(items) + [Delim(']')]
    modifies dec
    ensures r == ArrayOutcome(items, limit)
  {
    FirstOtherIsFirst(items);
    hide FirstOther, ArrayOutcome, EarlyStop, SkipTo;
    var count, allNumbers := 0, true;
    ghost var left := items;
    var more := dec.More();
    FirstTokenOfAll(items);
    while more
      invariant 0 <= count <= |items| && count <= MAX_ELEMENTS && left == items[count..]
      invariant dec.Valid() && dec.Rest() == TokensOfAll(left) + [Delim(']')]
      invariant more <==> left != []
      invariant allNumbers <==> FirstOther(items) >= count
      invariant !allNumbers ==> count <= limit
      decreases |items| - count
    {
      ghost var tail := TokensOfAll(left[1..]) + [Delim(']')];
      assert dec.Rest() == Tokens(left[0]) + tail;
      assert left[0] == items[count];
      OneMoreSeen(items, count);
      var number := ReadElement(dec, left[0], tail);
      if number.None? {
        return Err(InvalidInput);
      }
      allNumbers := allNumbers && number.value;
      count := count + 1;
      left := left[1..];
      if count > MAX_ELEMENTS {
        TooManyElements(items, limit, count);
        return Err(InputTooLarge);
      }
      if !allNumbers && count > limit {
        StoppedEarly(items, limit, count);
        return Ok(count);
      }
      more := dec.More();
      FirstTokenOfAll(left);
    }
    ReachedTheEnd(items, limit);
    if count == 0 {
      return Ok(0);
    }
    if allNumbers {
      return Ok(1);
    }
    return Ok(count);
  }

  /** In front of the closing bracket the decoder sees an element or the bracket itself. */
  lemma FirstTokenOfAll(items: seq<Json>)
    ensures var ts := TokensOfAll(items) + [Delim(']')]; Closes(ts[0]) <==> items == []
  {
    if items != [] {
      var ts := TokensOfAll(items) + [Delim(']')];
      assert ts[0] == Tokens(items[0])[0];
    }
  }

  /** Counts the inputs of a request; a missing field decodes to no tokens at all. */
  method CountInputs(input: Option<Json>, limit: int) returns (r: Result<nat, InputError>)
    ensures r == InputOutcome(input, limit)
  {
    var dec := new Decoder(if input.None? then [] else Tokens(input.value));
    var t := dec.Next();
    if t.None? {
      return Err(InvalidInput);
    }
    match t.value {
      case StringToken => return Ok(1);
      case Delim(c) =>
        if c != '[' {
          return Err(InvalidInput);
        }
        r := CountArrayInputs(dec, limit, input.value.items);
      case _ => return Err(InvalidInput);
    }
  }

  // ---------------------------------------------------------------- meaning

  /** How many inputs a request value carries, following the API's rules: a string is
      one, an array of numbers is one, any other array is one per element. */
  function InputsIn(v: Json): nat {
    match v
    case String(_) => 1
    case Array(items) => if items != [] && AllNumbers(items) then 1 else |items|
    case _ => 0
  }

  /** The requests that should get through. */
  predicate Acceptable(input: Option<Json>, limit: int) {
    match input
    case Some(String(_)) => true
    case Some(Array(items)) =>
      if AllNumbers(items) then 1 <= |items| <= MAX_ELEMENTS
      else |items| <= limit && |items| <= MAX_ELEMENTS
    case _ => false
  }

  /** The handler's verdict: the count came out, and the key's batch limit allows it. */
  predicate Accepts(l: Limits, input: Option<Json>) {
    var r := InputOutcome(input, l.batchMax);
    r.Ok? && AllowsBatch(l, r.value)
  }

  /** Despite the early exit, a request is accepted exactly when its value means an
      acceptable batch; and then the count is the number of inputs it carries. */
  lemma AcceptedExactlyWhenAcceptable(l: Limits, input: Option<Json>)
    requires l.batchMax >= 1
    ensures Accepts(l, input) <==> Acceptable(input, l.batchMax)
    ensures Accepts(l, input) ==> InputOutcome(input, l.batchMax) == Ok(InputsIn(input.value))
  {
    match input
    case Some(Array(items)) => FirstOtherIsFirst(items);
    case _ =>
  }

  /** What each refusal of the count means.  The value is invalid exactly if it is neither a
      string nor an array; it is too large exactly if it is an array of more than 100000
      elements whose first 100000 gave no reason to stop: they are all numbers, or do not
      pass the limit. */
  lemma RefusedExactly(input: Option<Json>, limit: int)
    ensures InputOutcome(input, limit) == Err(InvalidInput) <==> !(input.Some? && (input.value.String? || input.value.Array?))
    ensures InputOutcome(input, limit) == Err(InputTooLarge) <==>
              && input.Some? && input.value.Array? && |input.value.items| > 100_000
              && (limit >= 100_000 || forall i | 0 <= i < 100_000 :: input.value.items[i].Number?)
  {
    match input
    case Some(Array(items)) =>
      FirstOtherIsFirst(items);
      hide FirstOther;
    case _ =>
  }

  /** The count reported is the number of inputs, unless counting stopped early: then it
      is past the limit, and not past that number. */
  lemma CountIsExactOrPastTheLimit(input: Option<Json>, limit: int)
    requires InputOutcome(input, limit).Ok?
    ensures var n := InputOutcome(input, limit).value;
            input.Some? && (n == InputsIn(input.value) || limit < n <= InputsIn(input.value))
  {
    match input
    case Some(Array(items)) =>
      FirstOtherIsFirst(items);
      hide FirstOther;
    case _ =>
  }
}
