/**
 Payload values, the compact sorted-key text that every digest is taken over, and a parser that undoes it.
 The digest itself is idealised: it is the text it was taken over, so distinct texts have distinct digests.
 */
module Json {
  import opened Prelude
  import opened Strings

  predicate NumberChar(c: char) {
    Digit(c) || c in {'+', '-', '.', 'e', 'E', 'N', 'a', 'I', 'n', 'f', 'i', 't', 'y'}
  }

  /** The first letter of null, true or false. */
  predicate WordStart(c: char) { c == 'n' || c == 't' || c == 'f' }

  /** The text of a float as repr writes it: never the text of an integer, null, true or false. */
  predicate FloatLexeme(s: string) {
    && s != "" && (forall i | 0 <= i < |s| :: NumberChar(s[i]))
    && !WordStart(s[0])
    && !IntLexeme(s)
  }

  type FloatRepr = s: string | FloatLexeme(s) witness "."

  /**
   Python values: the JSON ones, tuples, the read-only mappings freezing produces, and anything json.dumps
   refuses.
   */
  datatype Value =
    | Null
    | Bool(b: bool)
    | Int(n: int)
    | Float(repr: FloatRepr)
    | Str(s: string)
    | List(items: seq<Value>)
    | Tuple(items: seq<Value>)
    | Dict(fields: map<string, Value>)
    | Proxy(fields: map<string, Value>)
    | Opaque(tag: int)

  type Fields = map<string, Value>

  /** json.dumps accepts the value. */
  predicate Dumpable(v: Value) {
    match v
    case List(items) => forall x | x in items :: Dumpable(x)
    case Tuple(items) => forall x | x in items :: Dumpable(x)
    case Dict(fields) => forall k | k in fields :: Dumpable(fields[k])
    case Proxy(_) => false
    case Opaque(_) => false
    case _ => true
  }

  /** `_plain`. */
  function Plain(v: Value): Value {
    match v
    case List(items) => List(PlainItems(items))
    case Tuple(items) => List(PlainItems(items))
    case Dict(fields) => Dict(map k | k in fields :: Plain(fields[k]))
    case Proxy(fields) => Dict(map k | k in fields :: Plain(fields[k]))
    case _ => v
  }

  function PlainItems(items: seq<Value>): (r: seq<Value>)
    ensures |r| == |items|
    ensures forall i | 0 <= i < |items| :: r[i] == Plain(items[i])
  {
    if items == [] then [] else [Plain(items[0])] + PlainItems(items[1..])
  }

  /** `_deep_freeze`. */
  function Freeze(v: Value): Value {
    match v
    case List(items) => Tuple(FreezeItems(items))
    case Tuple(items) => Tuple(FreezeItems(items))
    case Dict(fields) => Proxy(map k | k in fields :: Freeze(fields[k]))
    case Proxy(fields) => Proxy(map k | k in fields :: Freeze(fields[k]))
    case _ => v
  }

  function FreezeItems(items: seq<Value>): (r: seq<Value>)
    ensures |r| == |items|
    ensures forall i | 0 <= i < |items| :: r[i] == Freeze(items[i])
  {
    if items == [] then [] else [Freeze(items[0])] + FreezeItems(items[1..])
  }

  /** Freezing loses nothing that plain values show. */
  lemma {:induction false} PlainFreeze(v: Value)
    ensures Plain(Freeze(v)) == Plain(v)
  {
    match v
    case List(items) => PlainFreezeItems(items);
    case Tuple(items) => PlainFreezeItems(items);
    case Dict(fields) =>
      forall k | k in fields ensures Plain(Freeze(fields[k])) == Plain(fields[k]) { PlainFreeze(fields[k]); }
      PlainFreezeFields(v);
    case Proxy(fields) =>
      forall k | k in fields ensures Plain(Freeze(fields[k])) == Plain(fields[k]) { PlainFreeze(fields[k]); }
      PlainFreezeFields(v);
    case _ =>
  }

  lemma PlainFreezeFields(v: Value)
    requires (v.Dict? || v.Proxy?) && forall k | k in v.fields :: Plain(Freeze(v.fields[k])) == Plain(v.fields[k])
    ensures Plain(Freeze(v)) == Plain(v)
  {
  }

  lemma {:induction false} PlainFreezeItems(items: seq<Value>)
    ensures PlainItems(FreezeItems(items)) == PlainItems(items)
  {
    if items != [] {
      PlainFreeze(items[0]);
      PlainFreezeItems(items[1..]);
    }
  }

  /** Freezing sees nothing that plain values do not show. */
  lemma {:induction false} FreezePlain(v: Value)
    ensures Freeze(Plain(v)) == Freeze(v)
  {
    match v
    case List(items) => FreezePlainItems(items);
    case Tuple(items) => FreezePlainItems(items);
    case Dict(fields) =>
      forall k | k in fields ensures Freeze(Plain(fields[k])) == Freeze(fields[k]) { FreezePlain(fields[k]); }
      FreezePlainFields(v);
    case Proxy(fields) =>
      forall k | k in fields ensures Freeze(Plain(fields[k])) == Freeze(fields[k]) { FreezePlain(fields[k]); }
      FreezePlainFields(v);
    case _ =>
  }

  lemma FreezePlainFields(v: Value)
    requires (v.Dict? || v.Proxy?) && forall k | k in v.fields :: Freeze(Plain(v.fields[k])) == Freeze(v.fields[k])
    ensures Freeze(Plain(v)) == Freeze(v)
  {
  }

  lemma {:induction false} FreezePlainItems(items: seq<Value>)
    ensures FreezeItems(PlainItems(items)) == FreezeItems(items)
  {
    if items != [] {
      FreezePlain(items[0]);
      FreezePlainItems(items[1..]);
    }
  }

  lemma {:induction false} PlainIdempotent(v: Value)
    ensures Plain(Plain(v)) == Plain(v)
  {
    match v
    case List(items) => PlainIdempotentItems(items);
    case Tuple(items) => PlainIdempotentItems(items);
    case Dict(fields) =>
      forall k | k in fields ensures Plain(Plain(fields[k])) == Plain(fields[k]) { PlainIdempotent(fields[k]); }
    case Proxy(fields) =>
      forall k | k in fields ensures Plain(Plain(fields[k])) == Plain(fields[k]) { PlainIdempotent(fields[k]); }
    case _ =>
  }

  lemma {:induction false} PlainIdempotentItems(items: seq<Value>)
    ensures PlainItems(PlainItems(items)) == PlainItems(items)
  {
    if items != [] {
      PlainIdempotent(items[0]);
      PlainIdempotentItems(items[1..]);
    }
  }

  /** Plain values of payloads without foreign objects can be dumped, frozen or not. */
  predicate JsonLike(v: Value) {
    match v
    case List(items) => forall x | x in items :: JsonLike(x)
    case Tuple(items) => forall x | x in items :: JsonLike(x)
    case Dict(fields) => forall k | k in fields :: JsonLike(fields[k])
    case Proxy(fields) => forall k | k in fields :: JsonLike(fields[k])
    case Opaque(_) => false
    case _ => true
  }

  lemma {:induction false} PlainDumpable(v: Value)
    ensures Dumpable(Plain(v)) <==> JsonLike(v)
  {
    match v
    case List(items) => PlainDumpableItems(items);
    case Tuple(items) => PlainDumpableItems(items);
    case Dict(fields) =>
      forall k | k in fields ensures Dumpable(Plain(v).fields[k]) <==> JsonLike(fields[k]) { PlainDumpable(fields[k]); }
    case Proxy(fields) =>
      forall k | k in fields ensures Dumpable(Plain(v).fields[k]) <==> JsonLike(fields[k]) { PlainDumpable(fields[k]); }
    case _ =>
  }

  lemma {:induction false} PlainDumpableItems(items: seq<Value>)
    ensures (forall x | x in PlainItems(items) :: Dumpable(x)) <==> forall x | x in items :: JsonLike(x)
  {
    if items != [] {
      PlainDumpable(items[0]);
      PlainDumpableItems(items[1..]);
      assert items == [items[0]] + items[1..];
    }
  }

  // ---- json.dumps(separators=(",", ":"), sort_keys=True, ensure_ascii=False) ----

  function QuoteText(s: string): string { "\"" + Escape(s) + "\"" }

  function Text(v: Value): string
    requires Dumpable(v)
    decreases v, 1
  {
    match v
    case Null => "null"
    case Bool(b) => if b then "true" else "false"
    case Int(n) => IntText(n)
    case Float(repr) => repr
    case Str(s) => QuoteText(s)
    case List(items) => "[" + ItemsText(items)
    case Tuple(items) => "[" + ItemsText(items)
    case Dict(fields) => "{" + FieldsText(v, Sorted(fields.Keys))
  }

  /** The items and the closing bracket. */
  function ItemsText(items: seq<Value>): string
    requires forall x | x in items :: Dumpable(x)
    decreases items, 0
  {
    if items == [] then "]"
    else if |items| == 1 then Text(items[0]) + "]"
    else Text(items[0]) + "," + ItemsText(items[1..])
  }

  /** The named fields of a dict and the closing brace. */
  function FieldsText(v: Value, keys: seq<string>): string
    requires v.Dict? && Dumpable(v) && forall k | k in keys :: k in v.fields
    decreases v, 0, |keys|
  {
    if keys == [] then "}"
    else
      assert keys[0] in keys;
      var field := QuoteText(keys[0]) + ":" + Text(v.fields[keys[0]]);
      if |keys| == 1 then field + "}" else field + "," + FieldsText(v, keys[1..])
  }

  // ---- the parser ----

  function NumberRun(s: string): (n: nat)
    ensures n <= |s| && forall i | 0 <= i < n :: NumberChar(s[i])
    ensures n == |s| || !NumberChar(s[n])
  {
    if s == "" || !NumberChar(s[0]) then 0 else 1 + NumberRun(s[1..])
  }

  function StartsWith(s: string, word: string): bool {
    |word| <= |s| && s[..|word|] == word
  }

  /** One value, and the text after it. */
  function ParseValue(s: string): (r: Option<(Value, string)>)
    ensures r.Some? ==> |r.value.1| < |s|
    decreases |s|, 2
  {
    if s == "" then None
    else if s[0] == '"' then
      var x := ParseString(s[1..]);
      if x.None? then None else Some((Str(x.value.0), x.value.1))
    else if s[0] == '[' then
      if |s| > 1 && s[1] == ']' then Some((List([]), s[2..]))
      else
        var x := ParseItems(s[1..]);
        if x.None? then None else Some((List(x.value.0), x.value.1))
    else if s[0] == '{' then
      if |s| > 1 && s[1] == '}' then Some((Dict(map[]), s[2..]))
      else
        var x := ParseFields(s[1..]);
        if x.None? then None else Some((Dict(x.value.0), x.value.1))
    else if StartsWith(s, "null") then Some((Null, s[4..]))
    else if StartsWith(s, "true") then Some((Bool(true), s[4..]))
    else if StartsWith(s, "false") then Some((Bool(false), s[5..]))
    else
      var n := NumberRun(s);
      var lexeme := s[..n];
      if IntLexeme(lexeme) then Some((Int(IntValue(lexeme)), s[n..]))
      else if FloatLexeme(lexeme) then Some((Float(lexeme), s[n..]))
      else None
  }

  /** One or more items up to the closing bracket. */
  function ParseItems(s: string): (r: Option<(seq<Value>, string)>)
    ensures r.Some? ==> |r.value.1| < |s|
    decreases |s|, 3
  {
    var head := ParseValue(s);
    if head.None? || head.value.1 == "" then None
    else
      var rest := head.value.1;
      if rest[0] == ']' then Some(([head.value.0], rest[1..]))
      else if rest[0] != ',' then None
      else
        var tail := ParseItems(rest[1..]);
        if tail.None? then None else Some(([head.value.0] + tail.value.0, tail.value.1))
  }

  /** One or more key-value pairs up to the closing brace. */
  function ParseFields(s: string): (r: Option<(Fields, string)>)
    ensures r.Some? ==> |r.value.1| < |s|
    decreases |s|, 3
  {
    if s == "" || s[0] != '"' then None
    else
      var key := ParseString(s[1..]);
      if key.None? || key.value.1 == "" || key.value.1[0] != ':' then None
      else
        var head := ParseValue(key.value.1[1..]);
        if head.None? || head.value.1 == "" then None
        else
          var rest := head.value.1;
          if rest[0] == '}' then Some((map[key.value.0 := head.value.0], rest[1..]))
          else if rest[0] != ',' then None
          else
            var tail := ParseFields(rest[1..]);
            if tail.None? then None
            else Some((map[key.value.0 := head.value.0] + tail.value.0, tail.value.1))
  }

  // ---- the parser undoes the text ----

  predicate Delimited(rest: string) { rest == "" || !NumberChar(rest[0]) }

  lemma {:induction false} NumberRunStops(lexeme: string, rest: string)
    requires (forall i | 0 <= i < |lexeme| :: NumberChar(lexeme[i])) && Delimited(rest)
    ensures NumberRun(lexeme + rest) == |lexeme|
  {
    if lexeme != "" {
      assert (lexeme + rest)[1..] == lexeme[1..] + rest;
      NumberRunStops(lexeme[1..], rest);
    } else {
      assert lexeme + rest == rest;
    }
  }

  lemma IntTextChars(n: int)
    ensures IntText(n) != "" && forall i | 0 <= i < |IntText(n)| :: NumberChar(IntText(n)[i])
    ensures IntText(n)[0] == '-' || Digit(IntText(n)[0])
  {
    if n < 0 {
      assert forall i | 0 < i < |IntText(n)| :: IntText(n)[i] == NatText(-n)[i - 1];
    }
  }

  lemma ParseNumber(lexeme: string, rest: string)
    requires lexeme != "" && (forall i | 0 <= i < |lexeme| :: NumberChar(lexeme[i])) && Delimited(rest)
    requires !WordStart(lexeme[0])
    ensures IntLexeme(lexeme) ==> ParseValue(lexeme + rest) == Some((Int(IntValue(lexeme)), rest))
    ensures FloatLexeme(lexeme) ==> ParseValue(lexeme + rest) == Some((Float(lexeme), rest))
  {
    var s := lexeme + rest;
    NumberRunStops(lexeme, rest);
    assert s[..|lexeme|] == lexeme && s[|lexeme|..] == rest;
    assert s[0] == lexeme[0] && NumberChar(s[0]);
    NoWord(s, "null");
    NoWord(s, "true");
    NoWord(s, "false");
  }

  lemma NoWord(s: string, word: string)
    requires s != "" && word != "" && s[0] != word[0]
    ensures !StartsWith(s, word)
  {
    assert |word| <= |s| ==> s[..|word|][0] == s[0];
  }

  lemma TextNonempty(v: Value)
    requires Dumpable(v)
    ensures Text(v) != "" && Text(v)[0] != ']'
  {
    match v
    case Int(n) => IntTextChars(n);
    case Float(repr) => assert NumberChar(repr[0]);
    case _ =>
  }

  lemma Assoc(a: string, b: string, c: string)
    ensures (a + b) + c == a + (b + c)
  {
  }

  lemma ParseWord(v: Value, rest: string)
    requires v.Null? || v.Bool?
    ensures ParseValue(Text(v) + rest) == Some((v, rest))
  {
  }

  lemma ParseQuoted(x: string, rest: string)
    ensures (QuoteText(x) + rest)[0] == '"'
    ensures ParseString((QuoteText(x) + rest)[1..]) == Some((x, rest))
  {
    ParseUndoesEscape(x, rest);
    assert (QuoteText(x) + rest)[1..] == Escape(x) + "\"" + rest;
  }

  /** From any position in a longer text, the parser reads back exactly the value that was written. */
  lemma {:induction false} ParseUndoesText(v: Value, rest: string)
    requires Dumpable(v) && Delimited(rest)
    ensures ParseValue(Text(v) + rest) == Some((Plain(v), rest))
    decreases v, 1
  {
    match v
    case Null => ParseWord(v, rest);
    case Bool(_) => ParseWord(v, rest);
    case Int(n) =>
      IntTextChars(n);
      IntRoundTrip(n);
      ParseNumber(IntText(n), rest);
    case Float(repr) => ParseNumber(repr, rest);
    case Str(x) => ParseQuoted(x, rest);
    case List(_) => ParseUndoesList(v, rest);
    case Tuple(_) => ParseUndoesList(v, rest);
    case Dict(_) => ParseUndoesDict(v, rest);
  }

  lemma {:induction false} ParseUndoesDict(v: Value, rest: string)
    requires v.Dict? && Dumpable(v) && Delimited(rest)
    ensures ParseValue(Text(v) + rest) == Some((Plain(v), rest))
    decreases v, 0
  {
    var keys := Sorted(v.fields.Keys);
    if v.fields == map[] {
      ParseEmptyDict(v, rest);
    } else {
      assert v.fields.Keys != {};
      SortedDistinct(v.fields.Keys);
      ParseUndoesFields(v, keys, rest);
      AllFields(v, keys);
      FieldsTextStarts(v, keys);
      ParseBraced(FieldsText(v, keys), v, rest);
    }
  }

  lemma ParseEmptyDict(v: Value, rest: string)
    requires v.Dict? && Dumpable(v) && v.fields == map[]
    ensures ParseValue(Text(v) + rest) == Some((Plain(v), rest))
  {
    assert v.fields.Keys == {};
    var s := "{}" + rest;
    assert s[2..] == rest && s[0] == '{' && s[1] == '}';
    assert Plain(v) == Dict(map[]);
  }

  lemma AllFields(v: Value, keys: seq<string>)
    requires v.Dict? && keys == Sorted(v.fields.Keys)
    ensures Plain(v) == Dict(PlainFields(v, keys))
  {
    assert forall k | k in v.fields.Keys :: k in keys;
  }

  lemma FieldsTextStarts(v: Value, keys: seq<string>)
    requires v.Dict? && Dumpable(v) && keys != [] && forall k | k in keys :: k in v.fields
    ensures FieldsText(v, keys) != "" && FieldsText(v, keys)[0] == '"'
  {
    FieldsTextStep(v, keys);
  }

  lemma ParseBraced(text: string, v: Value, rest: string)
    requires text != "" && text[0] == '"'
    requires v.Dict? && ParseFields(text + rest) == Some((Plain(v).fields, rest))
    ensures ParseValue("{" + text + rest) == Some((Plain(v), rest))
  {
    var s := "{" + text + rest;
    Assoc("{", text, rest);
    assert s[1..] == text + rest;
    assert s[0] == '{' && s[1] == '"';
  }

  lemma {:induction false} ParseUndoesList(v: Value, rest: string)
    requires Dumpable(v) && (v.List? || v.Tuple?) && Delimited(rest)
    ensures ParseValue(Text(v) + rest) == Some((Plain(v), rest))
    decreases v, 0
  {
    var s := Text(v) + rest;
    if v.items == [] {
      assert Text(v) == "[]";
      assert s[2..] == rest;
    } else {
      assert s[1..] == ItemsText(v.items) + rest;
      ParseUndoesItems(v.items, rest);
      TextNonempty(v.items[0]);
    }
  }

  lemma {:induction false} ParseUndoesItems(items: seq<Value>, rest: string)
    requires items != [] && Delimited(rest) && forall x | x in items :: Dumpable(x)
    ensures ParseItems(ItemsText(items) + rest) == Some((PlainItems(items), rest))
    decreases items, 0
  {
    var text := Text(items[0]);
    if |items| == 1 {
      Assoc(text, "]", rest);
      ParseUndoesText(items[0], "]" + rest);
      assert ("]" + rest)[1..] == rest;
      assert PlainItems(items) == [Plain(items[0])];
    } else {
      var tail := ItemsText(items[1..]) + rest;
      Assoc(text + ",", ItemsText(items[1..]), rest);
      Assoc(text, ",", tail);
      ParseUndoesText(items[0], "," + tail);
      assert ("," + tail)[1..] == tail;
      ParseUndoesItems(items[1..], rest);
    }
  }

  lemma SortedDistinct(s: set<string>)
    ensures forall i, j | 0 <= i < j < |Sorted(s)| :: Sorted(s)[i] != Sorted(s)[j]
  {
    forall i, j | 0 <= i < j < |Sorted(s)| ensures Sorted(s)[i] != Sorted(s)[j] {
      LessTotal(Sorted(s)[i], Sorted(s)[j]);
    }
  }

  lemma {:induction false} ParseUndoesFields(v: Value, keys: seq<string>, rest: string)
    requires v.Dict? && Dumpable(v) && keys != [] && Delimited(rest) && forall k | k in keys :: k in v.fields
    requires forall i, j | 0 <= i < j < |keys| :: keys[i] != keys[j]
    ensures ParseFields(FieldsText(v, keys) + rest) == Some((PlainFields(v, keys), rest))
    decreases v, 0, |keys|
  {
    var k := keys[0];
    assert k in keys;
    var text, after := FieldText(k, v.fields[k]), AfterField(v, keys);
    ParseUndoesText(v.fields[k], after + rest);
    ParseField(k, v.fields[k], after + rest);
    FieldsSplit(v, keys, rest);
    PlainFieldsStep(v, keys);
    if |keys| > 1 {
      ParseUndoesFields(v, keys[1..], rest);
    }
  }

  lemma FieldsSplit(v: Value, keys: seq<string>, rest: string)
    requires v.Dict? && Dumpable(v) && keys != [] && forall k | k in keys :: k in v.fields
    ensures FieldsText(v, keys) + rest == FieldText(keys[0], v.fields[keys[0]]) + (AfterField(v, keys) + rest)
    ensures (AfterField(v, keys) + rest)[1..] == if |keys| == 1 then rest else FieldsText(v, keys[1..]) + rest
  {
    FieldsTextStep(v, keys);
    Assoc(FieldText(keys[0], v.fields[keys[0]]), AfterField(v, keys), rest);
    DropHead(AfterField(v, keys), rest);
    if |keys| == 1 { assert "" + rest == rest; }
  }

  lemma DropHead(a: string, b: string)
    requires a != ""
    ensures (a + b)[1..] == a[1..] + b
  {
  }

  /** What follows the first field: the closing brace, or a comma and the other fields. */
  function AfterField(v: Value, keys: seq<string>): (r: string)
    requires v.Dict? && Dumpable(v) && keys != [] && forall k | k in keys :: k in v.fields
    ensures r != "" && r[0] == if |keys| == 1 then '}' else ','
    ensures r[1..] == if |keys| == 1 then "" else FieldsText(v, keys[1..])
  {
    if |keys| == 1 then "}" else "," + FieldsText(v, keys[1..])
  }

  lemma FieldsTextStep(v: Value, keys: seq<string>)
    requires v.Dict? && Dumpable(v) && keys != [] && forall k | k in keys :: k in v.fields
    ensures FieldsText(v, keys) == FieldText(keys[0], v.fields[keys[0]]) + AfterField(v, keys)
  {
    if |keys| > 1 {
      Assoc(FieldText(keys[0], v.fields[keys[0]]), ",", FieldsText(v, keys[1..]));
    }
  }

  lemma PlainFieldsStep(v: Value, keys: seq<string>)
    requires v.Dict? && keys != [] && forall k | k in keys :: k in v.fields
    requires forall i, j | 0 <= i < j < |keys| :: keys[i] != keys[j]
    ensures PlainFields(v, keys) == map[keys[0] := Plain(v.fields[keys[0]])] + PlainFields(v, keys[1..])
    ensures |keys| == 1 ==> PlainFields(v, keys) == map[keys[0] := Plain(v.fields[keys[0]])]
  {
    assert keys == [keys[0]] + keys[1..];
    assert keys[0] !in keys[1..];
  }

  function PlainFields(v: Value, keys: seq<string>): Fields
    requires v.Dict? && forall k | k in keys :: k in v.fields
  {
    map k | k in keys :: Plain(v.fields[k])
  }

  function FieldText(k: string, v: Value): string
    requires Dumpable(v)
  {
    QuoteText(k) + ":" + Text(v)
  }

  /** The parser's first step on a field: its key, its value, and the separator it stops at. */
  lemma ParseField(k: string, v: Value, after: string)
    requires Dumpable(v) && ParseValue(Text(v) + after) == Some((Plain(v), after)) && after != ""
    ensures
      var s := FieldText(k, v) + after;
      ParseFields(s) ==
        if after[0] == '}' then Some((map[k := Plain(v)], after[1..]))
        else if after[0] != ',' then None
        else
          var tail := ParseFields(after[1..]);
          if tail.None? then None else Some((map[k := Plain(v)] + tail.value.0, tail.value.1))
  {
    var rest := ":" + (Text(v) + after);
    Assoc(QuoteText(k) + ":", Text(v), after);
    Assoc(QuoteText(k), ":", Text(v) + after);
    assert FieldText(k, v) + after == QuoteText(k) + rest;
    ParseQuoted(k, rest);
    assert rest[1..] == Text(v) + after;
  }

  /** Two values have the same canonical text exactly when they are equal up to key order and list or tuple. */
  lemma TextInjective(v: Value, w: Value)
    requires Dumpable(v) && Dumpable(w)
    ensures Text(v) == Text(w) <==> Plain(v) == Plain(w)
  {
    ParseUndoesText(v, "");
    ParseUndoesText(w, "");
    if Plain(v) == Plain(w) {
      TextOfPlain(v);
      TextOfPlain(w);
    }
    assert Text(v) + "" == Text(v) && Text(w) + "" == Text(w);
  }

  lemma {:induction false} TextOfPlain(v: Value)
    requires Dumpable(v)
    ensures Dumpable(Plain(v)) && Text(Plain(v)) == Text(v)
    decreases v, 1
  {
    match v
    case List(items) => TextOfPlainItems(items);
    case Tuple(items) => TextOfPlainItems(items);
    case Dict(fields) =>
      forall k | k in fields ensures Dumpable(Plain(fields[k])) && Text(Plain(fields[k])) == Text(fields[k]) {
        TextOfPlain(fields[k]);
      }
      assert Plain(v).fields.Keys == fields.Keys;
      TextOfPlainFields(v, Sorted(fields.Keys));
    case _ =>
  }

  lemma {:induction false} TextOfPlainItems(items: seq<Value>)
    requires forall x | x in items :: Dumpable(x)
    ensures forall x | x in PlainItems(items) :: Dumpable(x)
    ensures ItemsText(PlainItems(items)) == ItemsText(items)
    decreases items, 0
  {
    if items != [] {
      TextOfPlain(items[0]);
      TextOfPlainItems(items[1..]);
      assert PlainItems(items)[1..] == PlainItems(items[1..]);
    }
  }

  lemma {:induction false} TextOfPlainFields(v: Value, keys: seq<string>)
    requires v.Dict? && Dumpable(v) && forall k | k in keys :: k in v.fields
    requires Dumpable(Plain(v))
    requires forall k | k in v.fields :: Dumpable(Plain(v.fields[k])) && Text(Plain(v.fields[k])) == Text(v.fields[k])
    ensures FieldsText(Plain(v), keys) == FieldsText(v, keys)
    decreases v, 0, |keys|
  {
    if keys != [] {
      assert keys[0] in keys;
      TextOfPlainFields(v, keys[1..]);
    }
  }

  // ---- digests ----

  type Digest = string

  /** The idealised digest: the prefix every digest carries, and the text it was taken over. */
  function Sha256(text: string): Digest { "sha256:" + text }

  lemma Sha256Exact(a: string, b: string)
    ensures Sha256(a) == Sha256(b) <==> a == b
    ensures Sha256(a) != "" && !Blank(Sha256(a))
  {
    assert Sha256(a)[7..] == a && Sha256(b)[7..] == b;
    assert Sha256(a)[0] == 's';
  }

  function DigestOf(v: Value): Digest
    requires Dumpable(v)
  {
    Sha256(Text(v))
  }

  function Envelope(target: string, kind: string, payload: Value): Value {
    Dict(map["target" := Str(target), "operation_kind" := Str(kind), "effect_payload" := payload])
  }

  /** `operation_effect_digest`: TypeError when the payload cannot be dumped. */
  function EffectDigest(target: string, kind: string, payload: Value): Digest
    requires Dumpable(payload)
  {
    DigestOf(Envelope(target, kind, payload))
  }

  lemma PlainEnvelope(target: string, kind: string, payload: Value)
    ensures Plain(Envelope(target, kind, payload)) == Envelope(target, kind, Plain(payload))
  {
  }

  lemma EnvelopeInjective(t1: string, k1: string, p1: Value, t2: string, k2: string, p2: Value)
    requires Envelope(t1, k1, p1) == Envelope(t2, k2, p2)
    ensures t1 == t2 && k1 == k2 && p1 == p2
  {
    var f1, f2 := Envelope(t1, k1, p1).fields, Envelope(t2, k2, p2).fields;
    assert f1["target"] == f2["target"] && f1["operation_kind"] == f2["operation_kind"];
    assert f1["effect_payload"] == f2["effect_payload"];
  }

  /** An effect digest names its target, kind and payload, up to key order and list or tuple. */
  lemma EffectDigestExact(t1: string, k1: string, p1: Value, t2: string, k2: string, p2: Value)
    requires Dumpable(p1) && Dumpable(p2)
    ensures EffectDigest(t1, k1, p1) == EffectDigest(t2, k2, p2) <==> t1 == t2 && k1 == k2 && Plain(p1) == Plain(p2)
  {
    Sha256Exact(Text(Envelope(t1, k1, p1)), Text(Envelope(t2, k2, p2)));
    TextInjective(Envelope(t1, k1, p1), Envelope(t2, k2, p2));
    PlainEnvelope(t1, k1, p1);
    PlainEnvelope(t2, k2, p2);
    if EffectDigest(t1, k1, p1) == EffectDigest(t2, k2, p2) {
      EnvelopeInjective(t1, k1, Plain(p1), t2, k2, Plain(p2));
    }
  }

  /** The stored, frozen payload digests to what the original payload digested to. */
  lemma FrozenDigest(target: string, kind: string, payload: Value)
    requires Dumpable(payload)
    ensures Dumpable(Plain(Freeze(payload)))
    ensures EffectDigest(target, kind, Plain(Freeze(payload))) == EffectDigest(target, kind, payload)
  {
    PlainFreeze(payload);
    TextOfPlain(payload);
    PlainIdempotent(payload);
    EffectDigestExact(target, kind, Plain(payload), target, kind, payload);
  }
}
