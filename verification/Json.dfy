/**
 JSON values and the token stream a writer emits for them. A leaf is one token: the bytes of
 numbers and strings are not modelled. The main fact is that the tokens determine the value,
 so two writers produce the same stream exactly when they wrote the same value.
 */
module Json {
  datatype Json =
    | JNull
    | JBool(b: bool)
    | JNum(n: real)
    | JStr(s: string)
    | JArr(items: seq<Json>)
    | JObj(fields: seq<Field>)

  datatype Field = Field(key: string, value: Json)

  datatype Token =
    | TNull
    | TBool(b: bool)
    | TNum(n: real)
    | TStr(s: string)
    | LBracket | RBracket | LBrace | RBrace | Comma | Colon

  function Num(i: int): Json { JNum(i as real) }

  /** The tokens of one value. */
  function Emit(j: Json): (r: seq<Token>)
    ensures |r| > 0 && r[0] !in {RBracket, RBrace, Comma, Colon}
    decreases j, 0
  {
    match j
    case JNull => [TNull]
    case JBool(b) => [TBool(b)]
    case JNum(n) => [TNum(n)]
    case JStr(s) => [TStr(s)]
    case JArr(items) => [LBracket] + EmitItems(items) + [RBracket]
    case JObj(fields) => [LBrace] + EmitFields(fields) + [RBrace]
  }

  /** Array elements separated by commas; no comma before the first or after the last. */
  function EmitItems(items: seq<Json>): seq<Token>
    decreases items, 1
  {
    if items == [] then []
    else if |items| == 1 then Emit(items[0])
    else EmitItems(items[..|items| - 1]) + [Comma] + Emit(items[|items| - 1])
  }

  /** Object members separated by commas. */
  function EmitFields(fields: seq<Field>): seq<Token>
    decreases fields, 1
  {
    if fields == [] then []
    else if |fields| == 1 then EmitField(fields[0])
    else EmitFields(fields[..|fields| - 1]) + [Comma] + EmitField(fields[|fields| - 1])
  }

  function EmitField(f: Field): seq<Token>
    decreases f, 0
  {
    [TStr(f.key), Colon] + Emit(f.value)
  }

  // ---- the tokens determine the value ----

  lemma {:induction false} ItemsCons(items: seq<Json>)
    requires |items| > 1
    ensures EmitItems(items) == Emit(items[0]) + [Comma] + EmitItems(items[1..])
  {
    var n := |items| - 1;
    if n > 1 {
      ItemsCons(items[..n]);
      assert items[..n][1..] == items[1..][..n - 1];
    } else {
      assert items[..n] == [items[0]] && items[1..] == [items[1]];
    }
  }

  lemma {:induction false} FieldsCons(fields: seq<Field>)
    requires |fields| > 1
    ensures EmitFields(fields) == EmitField(fields[0]) + [Comma] + EmitFields(fields[1..])
  {
    var n := |fields| - 1;
    if n > 1 {
      FieldsCons(fields[..n]);
      assert fields[..n][1..] == fields[1..][..n - 1];
    } else {
      assert fields[..n] == [fields[0]] && fields[1..] == [fields[1]];
    }
  }

  /** The closing bracket and what follows it, after the elements from the second on. */
  ghost function AfterFirst(items: seq<Json>, x: seq<Token>): seq<Token>
    requires items != []
  {
    if |items| == 1 then [RBracket] + x else [Comma] + (EmitItems(items[1..]) + [RBracket] + x)
  }

  ghost function AfterFirstField(fields: seq<Field>, x: seq<Token>): seq<Token>
    requires fields != []
  {
    if |fields| == 1 then [RBrace] + x else [Comma] + (EmitFields(fields[1..]) + [RBrace] + x)
  }

  lemma ItemsSplit(items: seq<Json>, x: seq<Token>)
    ensures EmitItems(items) + [RBracket] + x
         == if items == [] then [RBracket] + x else Emit(items[0]) + AfterFirst(items, x)
  {
    if |items| > 1 { ItemsCons(items); }
  }

  lemma FieldsSplit(fields: seq<Field>, x: seq<Token>)
    ensures EmitFields(fields) + [RBrace] + x
         == if fields == [] then [RBrace] + x
            else [TStr(fields[0].key), Colon] + (Emit(fields[0].value) + AfterFirstField(fields, x))
  {
    if |fields| > 1 { FieldsCons(fields); }
  }

  lemma DropHead<T>(s: T, x: seq<T>, t: T, y: seq<T>)
    requires [s] + x == [t] + y
    ensures s == t && x == y
  {
    assert ([s] + x)[0] == ([t] + y)[0];
    assert ([s] + x)[1..] == x && ([t] + y)[1..] == y;
  }

  lemma EmptyOrNot(items: seq<Json>, x: seq<Token>, y: seq<Token>)
    ensures items != [] ==> Emit(items[0]) + AfterFirst(items, x) != [RBracket] + y
  {
    if items != [] {
      assert (Emit(items[0]) + AfterFirst(items, x))[0] == Emit(items[0])[0];
      assert ([RBracket] + y)[0] == RBracket;
    }
  }

  lemma EmptyOrNotFields(fields: seq<Field>, x: seq<Token>, y: seq<Token>)
    ensures fields != [] ==>
      [TStr(fields[0].key), Colon] + (Emit(fields[0].value) + AfterFirstField(fields, x)) != [RBrace] + y
  {
    if fields != [] {
      var r := Emit(fields[0].value) + AfterFirstField(fields, x);
      assert ([TStr(fields[0].key), Colon] + r)[0] == TStr(fields[0].key);
      assert ([RBrace] + y)[0] == RBrace;
    }
  }

  lemma DropKey(k: string, x: seq<Token>, l: string, y: seq<Token>)
    requires [TStr(k), Colon] + x == [TStr(l), Colon] + y
    ensures k == l && x == y
  {
    assert ([TStr(k), Colon] + x)[0] == ([TStr(l), Colon] + y)[0];
    assert ([TStr(k), Colon] + x)[2..] == x && ([TStr(l), Colon] + y)[2..] == y;
  }

  lemma {:induction false} ItemsPrefix(a: seq<Json>, b: seq<Json>, x: seq<Token>, y: seq<Token>)
    requires EmitItems(a) + [RBracket] + x == EmitItems(b) + [RBracket] + y
    ensures a == b && x == y
    decreases a, 1
  {
    ItemsSplit(a, x);
    ItemsSplit(b, y);
    EmptyOrNot(a, x, y);
    EmptyOrNot(b, y, x);
    if a == [] && b == [] {
      DropHead(RBracket, x, RBracket, y);
    } else if a == [] || b == [] {
      assert false;
    } else {
      EmitPrefix(a[0], b[0], AfterFirst(a, x), AfterFirst(b, y));
      RestPrefix(a, b, x, y);
    }
  }

  lemma {:induction false} RestPrefix(a: seq<Json>, b: seq<Json>, x: seq<Token>, y: seq<Token>)
    requires a != [] && b != [] && a[0] == b[0]
    requires AfterFirst(a, x) == AfterFirst(b, y)
    ensures a == b && x == y
    decreases a, 0
  {
    assert a == [a[0]] + a[1..] && b == [b[0]] + b[1..];
    var p := if |a| == 1 then x else EmitItems(a[1..]) + [RBracket] + x;
    var q := if |b| == 1 then y else EmitItems(b[1..]) + [RBracket] + y;
    DropHead(if |a| == 1 then RBracket else Comma, p, if |b| == 1 then RBracket else Comma, q);
    if |a| > 1 {
      ItemsPrefix(a[1..], b[1..], x, y);
    }
  }

  lemma {:induction false} FieldsPrefix(a: seq<Field>, b: seq<Field>, x: seq<Token>, y: seq<Token>)
    requires EmitFields(a) + [RBrace] + x == EmitFields(b) + [RBrace] + y
    ensures a == b && x == y
    decreases a, 1
  {
    FieldsSplit(a, x);
    FieldsSplit(b, y);
    EmptyOrNotFields(a, x, y);
    EmptyOrNotFields(b, y, x);
    if a == [] && b == [] {
      DropHead(RBrace, x, RBrace, y);
    } else if a == [] || b == [] {
      assert false;
    } else {
      DropKey(a[0].key, Emit(a[0].value) + AfterFirstField(a, x),
              b[0].key, Emit(b[0].value) + AfterFirstField(b, y));
      EmitPrefix(a[0].value, b[0].value, AfterFirstField(a, x), AfterFirstField(b, y));
      RestFieldsPrefix(a, b, x, y);
    }
  }

  lemma {:induction false} RestFieldsPrefix(a: seq<Field>, b: seq<Field>, x: seq<Token>, y: seq<Token>)
    requires a != [] && b != [] && a[0] == b[0]
    requires AfterFirstField(a, x) == AfterFirstField(b, y)
    ensures a == b && x == y
    decreases a, 0
  {
    assert a == [a[0]] + a[1..] && b == [b[0]] + b[1..];
    var p := if |a| == 1 then x else EmitFields(a[1..]) + [RBrace] + x;
    var q := if |b| == 1 then y else EmitFields(b[1..]) + [RBrace] + y;
    DropHead(if |a| == 1 then RBrace else Comma, p, if |b| == 1 then RBrace else Comma, q);
    if |a| > 1 {
      FieldsPrefix(a[1..], b[1..], x, y);
    }
  }

  /** No value's tokens are a proper prefix of another's, and equal tokens mean equal values. */
  lemma {:induction false} EmitPrefix(a: Json, b: Json, x: seq<Token>, y: seq<Token>)
    requires Emit(a) + x == Emit(b) + y
    ensures a == b && x == y
    decreases a, 0
  {
    assert Emit(a)[0] == (Emit(a) + x)[0] == (Emit(b) + y)[0] == Emit(b)[0];
    assert (Emit(a) + x)[1..] == (Emit(b) + y)[1..];
    match a
    case JArr(xs) =>
      assert (Emit(a) + x)[1..] == EmitItems(xs) + [RBracket] + x;
      assert (Emit(b) + y)[1..] == EmitItems(b.items) + [RBracket] + y;
      ItemsPrefix(xs, b.items, x, y);
    case JObj(fs) =>
      assert (Emit(a) + x)[1..] == EmitFields(fs) + [RBrace] + x;
      assert (Emit(b) + y)[1..] == EmitFields(b.fields) + [RBrace] + y;
      FieldsPrefix(fs, b.fields, x, y);
    case _ =>
      assert (Emit(a) + x)[1..] == x && (Emit(b) + y)[1..] == y;
  }

  lemma EmitInjective(a: Json, b: Json)
    ensures Emit(a) == Emit(b) <==> a == b
  {
    if Emit(a) == Emit(b) {
      EmitPrefix(a, b, [], []);
    }
  }
}
