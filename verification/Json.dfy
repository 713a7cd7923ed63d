// The JSON subset this gateway writes: strings without escapes, bare literals, arrays and objects.
// `Render` is the text of a tree; `Read` is an independent reader used to state what a written text means.

module Json {
  import opened Options

  datatype Json =
    | Str(text: string)
    | Bare(literal: string)
    | Arr(items: seq<Json>)
    | Obj(fields: seq<Field>)

  datatype Field = Field(key: string, value: Json)

  // ---- Text of a tree ----

  function Quote(text: string): string {
    "\"" + text + "\""
  }

  function Render(v: Json): string
    decreases v, 1
  {
    match v
    case Str(text) => Quote(text)
    case Bare(literal) => literal
    case Arr(items) => "[" + RenderItems(items) + "]"
    case Obj(fields) => "{" + RenderFields(fields) + "}"
  }

  function RenderItems(items: seq<Json>): string
    decreases items, 0
  {
    if items == [] then ""
    else if |items| == 1 then Render(items[0])
    else Render(items[0]) + "," + RenderItems(items[1..])
  }

  function RenderFields(fields: seq<Field>): string
    decreases fields, 0
  {
    if fields == [] then ""
    else if |fields| == 1 then Quote(fields[0].key) + ":" + Render(fields[0].value)
    else Quote(fields[0].key) + ":" + Render(fields[0].value) + "," + RenderFields(fields[1..])
  }

  lemma {:induction false} RenderFieldsSnoc(fields: seq<Field>, f: Field)
    ensures RenderFields(fields + [f])
         == (if fields == [] then "" else RenderFields(fields) + ",") + Quote(f.key) + ":" + Render(f.value)
  {
    hide Render, Quote;
    if fields == [] {
      assert fields + [f] == [f];
    } else {
      assert (fields + [f])[1..] == fields[1..] + [f];
      RenderFieldsSnoc(fields[1..], f);
    }
  }

  function FieldText(f: Field): string {
    Quote(f.key) + ":" + Render(f.value)
  }

  lemma RenderThreeFields(a: Field, b: Field, c: Field)
    ensures RenderFields([a, b, c]) == FieldText(a) + ("," + FieldText(b)) + ("," + FieldText(c))
  {
    hide RenderFields, Render, Quote;
    RenderFieldsSnoc([], a);
    RenderFieldsSnoc([a], b);
    RenderFieldsSnoc([a] + [b], c);
    assert [] + [a] == [a];
    assert [a, b, c] == [a] + [b] + [c];
    assert RenderFields([a]) == FieldText(a);
  }

  // ---- Reader ----

  predicate Delimiter(c: char) {
    c == '"' || c == ',' || c == ':' || c == '[' || c == ']' || c == '{' || c == '}'
  }

  // Number of leading characters of a bare literal.
  function BareLength(t: string): (n: nat)
    ensures n <= |t|
  {
    if t == "" || Delimiter(t[0]) then 0 else 1 + BareLength(t[1..])
  }

  // The text up to the closing quote, and what follows it; escapes are not read.
  function ReadString(t: string): (r: Option<(string, string)>)
    ensures r.Some? ==> |r.value.1| < |t|
  {
    if t == "" || t[0] == '\\' then None
    else if t[0] == '"' then Some(("", t[1..]))
    else match ReadString(t[1..])
         case None => None
         case Some((text, rest)) => Some(([t[0]] + text, rest))
  }

  function ReadValue(t: string): (r: Option<(Json, string)>)
    ensures r.Some? ==> |r.value.1| < |t|
    decreases |t|, 0
  {
    if t == "" then None
    else if t[0] == '"' then
      match ReadString(t[1..])
      case None => None
      case Some((text, rest)) => Some((Str(text), rest))
    else if t[0] == '[' then
      if |t| > 1 && t[1] == ']' then Some((Arr([]), t[2..]))
      else match ReadItems(t[1..])
           case None => None
           case Some((items, rest)) => Some((Arr(items), rest))
    else if t[0] == '{' then
      if |t| > 1 && t[1] == '}' then Some((Obj([]), t[2..]))
      else match ReadFields(t[1..])
           case None => None
           case Some((fields, rest)) => Some((Obj(fields), rest))
    else
      var n := BareLength(t);
      if n == 0 then None else Some((Bare(t[..n]), t[n..]))
  }

  // One or more items and the closing bracket.
  function ReadItems(t: string): (r: Option<(seq<Json>, string)>)
    ensures r.Some? ==> |r.value.1| < |t|
    decreases |t|, 1
  {
    match ReadValue(t)
    case None => None
    case Some((v, rest)) =>
      if rest == "" then None
      else if rest[0] == ']' then Some(([v], rest[1..]))
      else if rest[0] != ',' then None
      else match ReadItems(rest[1..])
           case None => None
           case Some((vs, rest')) => Some(([v] + vs, rest'))
  }

  // One or more fields and the closing brace.
  function ReadFields(t: string): (r: Option<(seq<Field>, string)>)
    ensures r.Some? ==> |r.value.1| < |t|
    decreases |t|, 1
  {
    if t == "" || t[0] != '"' then None
    else
      match ReadString(t[1..])
      case None => None
      case Some((key, rest)) =>
        if rest == "" || rest[0] != ':' then None
        else
          match ReadValue(rest[1..])
          case None => None
          case Some((v, rest)) =>
            if rest == "" then None
            else if rest[0] == '}' then Some(([Field(key, v)], rest[1..]))
            else if rest[0] != ',' then None
            else match ReadFields(rest[1..])
                 case None => None
                 case Some((fs, rest')) => Some(([Field(key, v)] + fs, rest'))
  }

  function Read(t: string): Option<Json> {
    match ReadValue(t)
    case None => None
    case Some((v, rest)) => if rest == "" then Some(v) else None
  }

  // ---- Reading a written text gives the tree back ----

  predicate CleanText(s: string) {
    forall i | 0 <= i < |s| :: s[i] != '"' && s[i] != '\\'
  }

  predicate CleanLiteral(s: string) {
    s != "" && forall i | 0 <= i < |s| :: !Delimiter(s[i])
  }

  predicate Clean(v: Json)
    decreases v, 1
  {
    match v
    case Str(text) => CleanText(text)
    case Bare(literal) => CleanLiteral(literal)
    case Arr(items) => CleanItems(items)
    case Obj(fields) => CleanFields(fields)
  }

  predicate CleanItems(items: seq<Json>)
    decreases items, 0
  {
    items == [] || (Clean(items[0]) && CleanItems(items[1..]))
  }

  predicate CleanFields(fields: seq<Field>)
    decreases fields, 0
  {
    fields == [] || (CleanText(fields[0].key) && Clean(fields[0].value) && CleanFields(fields[1..]))
  }

  // What may follow a value inside a larger text.
  predicate Follows(rest: string) {
    rest == "" || rest[0] == ',' || rest[0] == ']' || rest[0] == '}'
  }

  lemma {:induction false} ReadStringQuoted(s: string, rest: string)
    requires CleanText(s)
    ensures ReadString(s + "\"" + rest) == Some((s, rest))
  {
    var t := s + "\"" + rest;
    if s == "" {
      assert t == "\"" + rest;
      assert t[1..] == rest;
    } else {
      assert t[1..] == s[1..] + "\"" + rest;
      ReadStringQuoted(s[1..], rest);
      assert s == [s[0]] + s[1..];
    }
  }

  lemma {:induction false} BareLengthLiteral(s: string, rest: string)
    requires forall i | 0 <= i < |s| :: !Delimiter(s[i])
    requires Follows(rest)
    ensures BareLength(s + rest) == |s|
  {
    if s == "" {
      assert s + rest == rest;
    } else {
      assert (s + rest)[1..] == s[1..] + rest;
      BareLengthLiteral(s[1..], rest);
    }
  }

  lemma {:induction false} RenderStarts(v: Json)
    requires Clean(v)
    ensures Render(v) != "" && Render(v)[0] != ']' && Render(v)[0] != '}'
  {
  }

  lemma ReadQuoted(text: string, rest: string)
    requires CleanText(text)
    ensures ReadValue(Quote(text) + rest) == Some((Str(text), rest))
  {
    hide ReadString;
    var t := Quote(text) + rest;
    assert t[1..] == text + "\"" + rest;
    ReadStringQuoted(text, rest);
  }

  lemma ReadLiteral(literal: string, rest: string)
    requires CleanLiteral(literal) && Follows(rest)
    ensures ReadValue(literal + rest) == Some((Bare(literal), rest))
  {
    hide BareLength;
    var t := literal + rest;
    BareLengthLiteral(literal, rest);
    assert t[..|literal|] == literal && t[|literal|..] == rest;
    assert t[0] == literal[0] && !Delimiter(t[0]);
  }

  // The brackets around what is read by ReadItems and ReadFields.
  lemma ReadArray(inner: string, items: seq<Json>, rest: string)
    requires inner != "" && inner[0] != ']'
    requires ReadItems(inner) == Some((items, rest))
    ensures ReadValue("[" + inner) == Some((Arr(items), rest))
  {
    hide ReadItems;
    assert ("[" + inner)[1..] == inner;
  }

  lemma ReadObject(inner: string, fields: seq<Field>, rest: string)
    requires inner != "" && inner[0] != '}'
    requires ReadFields(inner) == Some((fields, rest))
    ensures ReadValue("{" + inner) == Some((Obj(fields), rest))
  {
    hide ReadFields;
    assert ("{" + inner)[1..] == inner;
  }

  lemma ReadNothing(rest: string)
    ensures ReadValue(Render(Arr([])) + rest) == Some((Arr([]), rest))
    ensures ReadValue(Render(Obj([])) + rest) == Some((Obj([]), rest))
  {
    hide ReadItems, ReadFields, ReadString;
    assert (Render(Arr([])) + rest)[2..] == rest;
    assert (Render(Obj([])) + rest)[2..] == rest;
  }

  lemma ItemsStart(items: seq<Json>)
    requires items != [] && CleanItems(items)
    ensures RenderItems(items) != "" && RenderItems(items)[0] != ']'
  {
    hide Render;
    RenderStarts(items[0]);
  }

  lemma FieldsStart(fields: seq<Field>)
    requires fields != []
    ensures RenderFields(fields) != "" && RenderFields(fields)[0] == '"'
  {
    hide Render;
  }

  lemma {:induction false} ReadRender(v: Json, rest: string)
    requires Clean(v) && Follows(rest)
    ensures ReadValue(Render(v) + rest) == Some((v, rest))
    decreases v, 1
  {
    hide ReadValue, ReadItems, ReadFields, RenderItems, RenderFields, CleanItems, CleanFields, Follows;
    match v
    case Str(text) =>
      ReadQuoted(text, rest);
    case Bare(literal) =>
      ReadLiteral(literal, rest);
    case Arr(items) =>
      if items == [] {
        ReadNothing(rest);
      } else {
        var inner := RenderItems(items) + "]" + rest;
        ItemsStart(items);
        ReadRenderItems(items, rest);
        ReadArray(inner, items, rest);
        assert Render(v) + rest == "[" + inner;
      }
    case Obj(fields) =>
      if fields == [] {
        ReadNothing(rest);
      } else {
        var inner := RenderFields(fields) + "}" + rest;
        FieldsStart(fields);
        ReadRenderFields(fields, rest);
        ReadObject(inner, fields, rest);
        assert Render(v) + rest == "{" + inner;
      }
  }

  lemma {:induction false} ReadRenderItems(items: seq<Json>, rest: string)
    requires items != [] && CleanItems(items)
    ensures ReadItems(RenderItems(items) + "]" + rest) == Some((items, rest))
    decreases items, 0
  {
    hide ReadValue, Render, Clean;
    var t := RenderItems(items) + "]" + rest;
    if |items| == 1 {
      var after := "]" + rest;
      assert t == Render(items[0]) + after;
      ReadRender(items[0], after);
      assert after[1..] == rest;
      assert items == [items[0]];
    } else {
      var after := "," + (RenderItems(items[1..]) + "]" + rest);
      assert t == Render(items[0]) + after;
      ReadRender(items[0], after);
      assert after[1..] == RenderItems(items[1..]) + "]" + rest;
      ReadRenderItems(items[1..], rest);
      assert items == [items[0]] + items[1..];
    }
  }

  // Reading one field leaves the continuation of the object text.
  lemma ReadFieldHead(key: string, v: Json, after: string)
    requires CleanText(key)
    requires ReadValue(Render(v) + after) == Some((v, after))
    requires after != "" && (after[0] == '}' || after[0] == ',')
    ensures ReadFields(Quote(key) + ":" + Render(v) + after)
         == if after[0] == '}' then Some(([Field(key, v)], after[1..]))
            else match ReadFields(after[1..])
                 case None => None
                 case Some((fs, rest)) => Some(([Field(key, v)] + fs, rest))
  {
    var value := Render(v) + after;
    var t := Quote(key) + ":" + Render(v) + after;
    assert t[1..] == key + "\"" + (":" + value);
    ReadStringQuoted(key, ":" + value);
    assert (":" + value)[1..] == value;
  }

  lemma {:induction false} ReadRenderFields(fields: seq<Field>, rest: string)
    requires fields != [] && CleanFields(fields)
    ensures ReadFields(RenderFields(fields) + "}" + rest) == Some((fields, rest))
    decreases fields, 0
  {
    hide ReadFields, ReadValue, Render, Quote, Clean, CleanText;
    var f := fields[0];
    var head := Quote(f.key) + ":" + Render(f.value);
    if |fields| == 1 {
      var after := "}" + rest;
      assert RenderFields(fields) + "}" + rest == head + after;
      ReadRender(f.value, after);
      ReadFieldHead(f.key, f.value, after);
      assert after[1..] == rest;
      assert fields == [f];
    } else {
      var after := "," + (RenderFields(fields[1..]) + "}" + rest);
      assert RenderFields(fields) + "}" + rest == head + after;
      ReadRender(f.value, after);
      ReadFieldHead(f.key, f.value, after);
      assert after[1..] == RenderFields(fields[1..]) + "}" + rest;
      ReadRenderFields(fields[1..], rest);
      assert fields == [f] + fields[1..];
    }
  }

  lemma {:induction false} ReadOfRender(v: Json)
    requires Clean(v)
    ensures Read(Render(v)) == Some(v)
  {
    ReadRender(v, "");
    assert Render(v) + "" == Render(v);
  }

  // ---- Only clean trees can be read ----

  lemma {:induction false} ReadStringIsClean(t: string)
    ensures ReadString(t).Some? ==> CleanText(ReadString(t).value.0)
  {
    if t != "" && t[0] != '\\' && t[0] != '"' {
      ReadStringIsClean(t[1..]);
    }
  }

  lemma {:induction false} BareLengthIsClean(t: string)
    ensures forall i | 0 <= i < BareLength(t) :: !Delimiter(t[i])
  {
    if t != "" && !Delimiter(t[0]) {
      BareLengthIsClean(t[1..]);
    }
  }

  lemma {:induction false} ReadValueIsClean(t: string)
    ensures ReadValue(t).Some? ==> Clean(ReadValue(t).value.0)
    decreases |t|, 0
  {
    if t != "" {
      if t[0] == '"' {
        ReadStringIsClean(t[1..]);
      } else if t[0] == '[' {
        ReadItemsIsClean(t[1..]);
      } else if t[0] == '{' {
        ReadFieldsIsClean(t[1..]);
      } else {
        BareLengthIsClean(t);
      }
    }
  }

  lemma {:induction false} ReadItemsIsClean(t: string)
    ensures ReadItems(t).Some? ==> CleanItems(ReadItems(t).value.0)
    decreases |t|, 1
  {
    ReadValueIsClean(t);
    match ReadValue(t)
    case None =>
    case Some((v, rest)) =>
      assert CleanItems([]);
      if rest != "" && rest[0] == ',' {
        ReadItemsIsClean(rest[1..]);
        if ReadItems(rest[1..]).Some? {
          var vs := ReadItems(rest[1..]).value.0;
          assert ([v] + vs)[1..] == vs;
        }
      }
  }

  lemma {:induction false} ReadFieldsIsClean(t: string)
    ensures ReadFields(t).Some? ==> CleanFields(ReadFields(t).value.0)
    decreases |t|, 1
  {
    if t != "" && t[0] == '"' {
      ReadStringIsClean(t[1..]);
      match ReadString(t[1..])
      case None =>
      case Some((key, rest)) =>
        if rest != "" && rest[0] == ':' {
          ReadValueIsClean(rest[1..]);
          match ReadValue(rest[1..])
          case None =>
          case Some((v, rest)) =>
            assert CleanFields([]);
            if rest != "" && rest[0] == ',' {
              ReadFieldsIsClean(rest[1..]);
              if ReadFields(rest[1..]).Some? {
                var fs := ReadFields(rest[1..]).value.0;
                assert ([Field(key, v)] + fs)[1..] == fs;
              }
            }
        }
    }
  }

  // ---- Looking up a field ----

  function Lookup(fields: seq<Field>, key: string): Option<Json> {
    if fields == [] then None
    else if fields[0].key == key then Some(fields[0].value)
    else Lookup(fields[1..], key)
  }

  function Get(v: Json, key: string): Option<Json> {
    if v.Obj? then Lookup(v.fields, key) else None
  }

  // The string under a key, when there is one.
  function GetText(v: Json, key: string): Option<string> {
    match Get(v, key)
    case Some(Str(text)) => Some(text)
    case _ => None
  }

  lemma {:induction false} LookupIsClean(fields: seq<Field>, key: string)
    requires CleanFields(fields)
    ensures Lookup(fields, key).Some? ==> Clean(Lookup(fields, key).value)
  {
    if fields != [] && fields[0].key != key {
      LookupIsClean(fields[1..], key);
    }
  }

  /** No text that was read holds a string with a quote or a backslash. */
  lemma ReadTextIsClean(t: string, key: string)
    ensures Read(t).Some? && GetText(Read(t).value, key).Some? ==> CleanText(GetText(Read(t).value, key).value)
  {
    hide ReadValue;
    ReadValueIsClean(t);
    if Read(t).Some? && Read(t).value.Obj? {
      LookupIsClean(Read(t).value.fields, key);
    }
  }
}
