/**
 * `createEnhancedJson`: the JSON value shown in the liabilities pop-up is
 * turned into collapsible HTML. Scalars become one tagged span; an empty
 * array or object becomes a literal token; a non-empty container becomes a
 * toggle button (opened in the active state), one row per element in index
 * or key order with a comma span after every row but the last, and a closing
 * bracket. The `path` argument of the source is threaded through the
 * recursion but never reaches the output, so it is not modelled.
 */
module JsonRender {
  import opened Numbers
  import opened HtmlEscape

  /** The value model of section 3 of RFC 8259; numbers are integral here. */
  datatype JsonValue =
    | Null
    | Bool(b: bool)
    | Number(n: int)
    | String(s: string)
    | Array(items: seq<JsonValue>)
    | Object(members: seq<Member>)

  /** One object member; members are listed in `Object.keys` order. */
  datatype Member = Member(key: string, value: JsonValue)

  const NullHtml := "<span class=\"json-null\">null</span>"
  const EmptyArrayHtml := "<span class=\"json-array\">[]</span>"
  const EmptyObjectHtml := "<span class=\"json-object\">{}</span>"
  const CommaHtml := "<span class=\"json-comma\">,</span>"
  const RowClose := "</div>"

  function BoolHtml(b: bool): (r: string)
    ensures Opens(r) && Closes(r)
  {
    "<span class=\"json-boolean\">" + (if b then "true" else "false") + "</span>"
  }

  function NumberHtml(n: int): (r: string)
    ensures Opens(r) && Closes(r)
  {
    "<span class=\"json-number\">" + IntToString(n) + "</span>"
  }

  /** The markup before and after the escaped text of a string value. */
  const StringOpen := "<span class=\"json-string\">\""
  const StringClose := "\"</span>"

  function StringHtml(s: string): (r: string)
    ensures Opens(r) && Closes(r)
  {
    StringOpen + EscapeHtml(s) + StringClose
  }

  function KindClass(isArray: bool): string {
    if isArray then "json-array" else "json-object"
  }

  /** The item wrapper, the toggle button in its active state, and the opened content region. */
  function OpenHtml(isArray: bool): (r: string)
    ensures Opens(r)
  {
    "<div class=\"json-item\">" +
    ("<button class=\"collapsible active\"><span class=\"toggle-icon\">&#9660;</span> <span class=\"" +
     KindClass(isArray) + "\">" + (if isArray then "[" else "{") + "</span></button>" +
     "<div class=\"collapsible-content\" style=\"max-height: none;\">")
  }

  /** The end of the content region, the closing bracket and the end of the item wrapper. */
  function CloseHtml(isArray: bool): (r: string)
    ensures Closes(r)
  {
    "</div>" + "<span class=\"" + KindClass(isArray) + "\">" + (if isArray then "]" else "}") + "</span>" + "</div>"
  }

  function ArrayRowOpen(i: nat): string {
    "<div class=\"json-array-item\">" + "<span class=\"json-index\">" + NatToString(i) + ":</span> "
  }

  function ObjectRowOpen(key: string): string {
    "<div class=\"json-object-item\">" + "<span class=\"json-key\">\"" + EscapeHtml(key) + "\"</span>: "
  }

  /** The comma span that follows row `i` of `n` rows: present for every row but the last. */
  function CommaAfter(i: nat, n: nat): string {
    if i + 1 < n then CommaHtml else ""
  }

  /**
   * `createEnhancedJson(v)`. Whatever the value, the markup starts with the
   * `<` of a tag and ends with the `>` of a tag; the rows of a container are
   * described by `ArrayRowsInOrder`, `ObjectRowsInOrder` and the comma lemmas.
   */
  function Render(v: JsonValue): (r: string)
    ensures Opens(r) && Closes(r)
    decreases v
  {
    match v
    case Null => NullHtml
    case Bool(b) => BoolHtml(b)
    case Number(n) => NumberHtml(n)
    case String(s) => StringHtml(s)
    case Array(items) =>
      if |items| == 0 then EmptyArrayHtml else ContainerHtml(true, ArrayRows(items, |items|))
    case Object(ms) =>
      if |ms| == 0 then EmptyObjectHtml else ContainerHtml(false, ObjectRows(ms, |ms|))
  }

  /** A non-empty container: the opened item around its rows, then the closing bracket. */
  function ContainerHtml(isArray: bool, rows: string): (r: string)
    ensures Opens(r) && Closes(r)
  {
    OpenHtml(isArray) + rows + CloseHtml(isArray)
  }

  /** The markup starts with the `<` of a tag. */
  predicate Opens(r: string) {
    |r| > 0 && r[0] == '<'
  }

  /** The markup ends with the `>` of a tag. */
  predicate Closes(r: string) {
    |r| > 0 && r[|r| - 1] == '>'
  }

  function ArrayRow(items: seq<JsonValue>, i: nat): string
    requires i < |items|
    decreases items, i
  {
    ArrayRowOpen(i) + Render(items[i]) + CommaAfter(i, |items|) + RowClose
  }

  /** The first `n` rows of an array, as the `forEach` loop appends them. */
  function ArrayRows(items: seq<JsonValue>, n: nat): string
    requires n <= |items|
    decreases items, n
  {
    if n == 0 then "" else ArrayRows(items, n - 1) + ArrayRow(items, n - 1)
  }

  function ObjectRow(ms: seq<Member>, i: nat): string
    requires i < |ms|
    decreases ms, i
  {
    ObjectRowOpen(ms[i].key) + Render(ms[i].value) + CommaAfter(i, |ms|) + RowClose
  }

  function ObjectRows(ms: seq<Member>, n: nat): string
    requires n <= |ms|
    decreases ms, n
  {
    if n == 0 then "" else ObjectRows(ms, n - 1) + ObjectRow(ms, n - 1)
  }

  /**
   * `createEnhancedJson` as the source runs it: recursion on the children,
   * with each container's rows appended to the markup inside a loop.
   */
  method CreateEnhancedJson(v: JsonValue) returns (html: string)
    ensures html == Render(v)
    decreases v, 3
  {
    match v {
      case Null =>
        html := NullHtml;
      case Bool(b) =>
        html := BoolHtml(b);
      case Number(n) =>
        html := NumberHtml(n);
      case String(s) =>
        html := StringHtml(s);
      case Array(items) =>
        html := ArrayHtml(items);
      case Object(ms) =>
        html := ObjectHtml(ms);
    }
  }

  /** The array case: the empty token, or the opened container around the element rows. */
  method ArrayHtml(items: seq<JsonValue>) returns (html: string)
    ensures html == Render(Array(items))
    decreases items, 2
  {
    if |items| == 0 {
      html := EmptyArrayHtml;
    } else {
      var rows := ArrayRowsHtml(items);
      html := OpenHtml(true) + rows + CloseHtml(true);
    }
  }

  /** The object case: the empty token, or the opened container around the member rows. */
  method ObjectHtml(ms: seq<Member>) returns (html: string)
    ensures html == Render(Object(ms))
    decreases ms, 2
  {
    if |ms| == 0 {
      html := EmptyObjectHtml;
    } else {
      var rows := ObjectRowsHtml(ms);
      html := OpenHtml(false) + rows + CloseHtml(false);
    }
  }

  /** The `obj.forEach` loop over an array's elements. */
  method ArrayRowsHtml(items: seq<JsonValue>) returns (html: string)
    ensures html == ArrayRows(items, |items|)
    decreases items, 1
  {
    html := "";
    for i := 0 to |items|
      invariant html == ArrayRows(items, i)
    {
      var row := ArrayRowHtml(items, i);
      html := html + row;
    }
  }

  /** The body of the array loop: the row of element `i`. */
  method ArrayRowHtml(items: seq<JsonValue>, i: nat) returns (row: string)
    requires i < |items|
    ensures row == ArrayRow(items, i)
    decreases items, 0
  {
    row := ArrayRowOpen(i);
    var child := CreateEnhancedJson(items[i]);
    row := row + child;
    if i < |items| - 1 {
      row := row + CommaHtml;
    }
    row := row + RowClose;
  }

  /** The `keys.forEach` loop over an object's members. */
  method ObjectRowsHtml(ms: seq<Member>) returns (html: string)
    ensures html == ObjectRows(ms, |ms|)
    decreases ms, 1
  {
    html := "";
    for i := 0 to |ms|
      invariant html == ObjectRows(ms, i)
    {
      var row := ObjectRowHtml(ms, i);
      html := html + row;
    }
  }

  /** The body of the object loop: the row of member `i`. */
  method ObjectRowHtml(ms: seq<Member>, i: nat) returns (row: string)
    requires i < |ms|
    ensures row == ObjectRow(ms, i)
    decreases ms, 0
  {
    row := ObjectRowOpen(ms[i].key);
    var child := CreateEnhancedJson(ms[i].value);
    row := row + child;
    if i < |ms| - 1 {
      row := row + CommaHtml;
    }
    row := row + RowClose;
  }

  // ---------------------------------------------------------------------
  // Properties of the markup
  // ---------------------------------------------------------------------

  /** The fixed outputs of the base cases. */
  lemma BaseCaseTokens(s: string)
    ensures Render(Null) == "<span class=\"json-null\">null</span>"
    ensures Render(Array([])) == "<span class=\"json-array\">[]</span>"
    ensures Render(Object([])) == "<span class=\"json-object\">{}</span>"
    ensures Render(String(s)) == "<span class=\"json-string\">\"" + EscapeHtml(s) + "\"</span>"
  {
  }

  /**
   * A string value can be read back from its span: the text between the
   * quotes holds no quote character, so the first quote after the opening
   * one closes it, and unescaping that text gives the value again. Two
   * different strings are therefore never shown the same way.
   */
  lemma StringLeafDecodes(s: string, s': string)
    ensures var r, p := Render(String(s)), |StringOpen|;
      p + |StringClose| <= |r| && r[..p] == StringOpen && r[|r| - |StringClose|..] == StringClose
      && (forall i :: p <= i < |r| - |StringClose| ==> r[i] != '"')
      && UnescapeHtml(r[p..|r| - |StringClose|]) == s
    ensures Render(String(s)) == Render(String(s')) ==> s == s'
  {
    var r, e := Render(String(s)), EscapeHtml(s);
    var p := |StringOpen|;
    assert r == StringOpen + e + StringClose;
    assert r[p..|r| - |StringClose|] == e;
    UnescapeEscape(s);
    if Render(String(s)) == Render(String(s')) {
      var r' := Render(String(s'));
      assert r'[p..|r'| - |StringClose|] == EscapeHtml(s');
      UnescapeEscape(s');
    }
  }

  /** The concatenation of a list of strings, in order. */
  function Concat(parts: seq<string>): string {
    if parts == [] then "" else Concat(parts[..|parts| - 1]) + parts[|parts| - 1]
  }

  /** The rows of the first `n` elements, in index order. */
  function ArrayRowSeq(items: seq<JsonValue>, n: nat): seq<string>
    requires n <= |items|
  {
    seq(n, i requires 0 <= i < n <= |items| => ArrayRow(items, i))
  }

  /** The rows of the first `n` members, in key order. */
  function ObjectRowSeq(ms: seq<Member>, n: nat): seq<string>
    requires n <= |ms|
  {
    seq(n, i requires 0 <= i < n <= |ms| => ObjectRow(ms, i))
  }

  /**
   * The rows of an array, one per element in index order: row `i` is
   * labelled with `i`, holds the markup of element `i`, and carries a comma
   * span exactly when it is not the last row.
   */
  lemma {:induction false} ArrayRowsInOrder(items: seq<JsonValue>, n: nat)
    requires n <= |items|
    ensures ArrayRows(items, n) == Concat(ArrayRowSeq(items, n))
  {
    if n > 0 {
      ArrayRowsInOrder(items, n - 1);
      ArrayRowSeqStep(items, n);
    }
  }

  lemma ArrayRowSeqStep(items: seq<JsonValue>, n: nat)
    requires 0 < n <= |items|
    ensures ArrayRowSeq(items, n)[..n - 1] == ArrayRowSeq(items, n - 1)
    ensures ArrayRowSeq(items, n)[n - 1] == ArrayRow(items, n - 1)
  {
    var rows, shorter := ArrayRowSeq(items, n), ArrayRowSeq(items, n - 1);
    assert |rows[..n - 1]| == |shorter|;
    forall i | 0 <= i < n - 1
      ensures rows[..n - 1][i] == shorter[i]
    {
    }
  }

  /**
   * The rows of an object, one per member in key order: row `i` shows key
   * `i` (escaped, in quotes), the markup of its value, and a comma span
   * exactly when it is not the last row.
   */
  lemma {:induction false} ObjectRowsInOrder(ms: seq<Member>, n: nat)
    requires n <= |ms|
    ensures ObjectRows(ms, n) == Concat(ObjectRowSeq(ms, n))
  {
    if n > 0 {
      ObjectRowsInOrder(ms, n - 1);
      ObjectRowSeqStep(ms, n);
    }
  }

  lemma ObjectRowSeqStep(ms: seq<Member>, n: nat)
    requires 0 < n <= |ms|
    ensures ObjectRowSeq(ms, n)[..n - 1] == ObjectRowSeq(ms, n - 1)
    ensures ObjectRowSeq(ms, n)[n - 1] == ObjectRow(ms, n - 1)
  {
    var rows, shorter := ObjectRowSeq(ms, n), ObjectRowSeq(ms, n - 1);
    assert |rows[..n - 1]| == |shorter|;
    forall i | 0 <= i < n - 1
      ensures rows[..n - 1][i] == shorter[i]
    {
    }
  }

  /** The markup ends with `s`. */
  predicate EndsWith(r: string, s: string) {
    |s| <= |r| && r[|r| - |s|..] == s
  }

  /** Counted from the end, the characters of `a + b` are those of `b`. */
  lemma CharFromEnd(a: string, b: string, k: nat)
    requires 0 < k <= |b|
    ensures (a + b)[|a + b| - k] == b[|b| - k]
  {
  }

  /** Where the comma of a trailing `,</span>` would stand, eight characters from the end. */
  predicate NoCommaSpanEnd(r: string) {
    |r| >= 8 && r[|r| - 8] != ','
  }

  /** A value's markup before its closing `</span>` ends with something other than a comma. */
  lemma SpanEnd(body: string)
    requires |body| > 0 && body[|body| - 1] != ','
    ensures NoCommaSpanEnd(body + "</span>")
  {
    var r := body + "</span>";
    assert r[|r| - 8] == body[|body| - 1];
  }

  /** No value's markup ends in a comma span. */
  lemma RenderEndsWithoutComma(v: JsonValue)
    ensures NoCommaSpanEnd(Render(v))
  {
    TokensEnd();
    match v
    case Null =>
    case Bool(b) =>
      BoolEnd(b);
    case Number(n) =>
      NumberEnd(n);
    case String(s) =>
      StringEnd(s);
    case Array(items) =>
      if |items| > 0 {
        ContainerEnd(true, ArrayRows(items, |items|));
      }
    case Object(ms) =>
      if |ms| > 0 {
        ContainerEnd(false, ObjectRows(ms, |ms|));
      }
  }

  /** The `null`, `[]` and `{}` tokens end with `l`, `]` and `}` before their `</span>`. */
  lemma TokensEnd()
    ensures NoCommaSpanEnd(NullHtml) && NoCommaSpanEnd(EmptyArrayHtml) && NoCommaSpanEnd(EmptyObjectHtml)
  {
    SpanEnd("<span class=\"json-null\">null");
    SpanEnd("<span class=\"json-array\">[]");
    SpanEnd("<span class=\"json-object\">{}");
  }

  /** `true` and `false` end with `e` before their `</span>`. */
  lemma BoolEnd(b: bool)
    ensures NoCommaSpanEnd(BoolHtml(b))
  {
    SpanEnd("<span class=\"json-boolean\">" + (if b then "true" else "false"));
  }

  /** A numeral ends with a digit before its `</span>`. */
  lemma NumberEnd(n: int)
    ensures NoCommaSpanEnd(NumberHtml(n))
  {
    var digits := IntToString(n);
    var body := "<span class=\"json-number\">" + digits;
    assert body[|body| - 1] == digits[|digits| - 1];
    SpanEnd(body);
  }

  /** A string ends with its closing quote before its `</span>`. */
  lemma StringEnd(s: string)
    ensures NoCommaSpanEnd(StringHtml(s))
  {
    CharFromEnd(StringOpen + EscapeHtml(s), StringClose, 8);
  }

  /** A container ends with its bracket's `</span>` and the item's `</div>`. */
  lemma ContainerEnd(isArray: bool, rows: string)
    ensures NoCommaSpanEnd(ContainerHtml(isArray, rows))
  {
    var head := "</div>" + "<span class=\"" + KindClass(isArray) + "\">" + (if isArray then "]" else "}");
    assert CloseHtml(isArray) == head + ("</span>" + "</div>");
    CharFromEnd(head, "</span>" + "</div>", 8);
    CharFromEnd(OpenHtml(isArray) + rows, CloseHtml(isArray), 8);
  }

  /**
   * A row closed after a comma span ends with both; one closed straight
   * after markup that does not end in a comma span does not.
   */
  lemma RowTail(open: string, body: string, more: bool)
    requires |open| >= |CommaHtml| && NoCommaSpanEnd(body)
    ensures EndsWith(open + body + (if more then CommaHtml else "") + RowClose, CommaHtml + RowClose) <==> more
  {
    var head := open + body;
    var tail := CommaHtml + RowClose;
    if more {
      assert (head + CommaHtml + RowClose)[|head|..] == tail;
    } else {
      CharFromEnd(open, body, 8);
      var r := head + "" + RowClose;
      assert r[|r| - |tail| + (|CommaHtml| - 8)] == head[|head| - 8];
      assert tail[|CommaHtml| - 8] == ',';
    }
  }

  /** Row `i` of an array ends with a comma span and its closing tag exactly when it is not the last row. */
  lemma ArrayRowComma(items: seq<JsonValue>, i: nat)
    requires i < |items|
    ensures EndsWith(ArrayRow(items, i), CommaHtml + RowClose) <==> i + 1 < |items|
  {
    RenderEndsWithoutComma(items[i]);
    RowTail(ArrayRowOpen(i), Render(items[i]), i + 1 < |items|);
  }

  /** Row `i` of an object ends with a comma span and its closing tag exactly when it is not the last row. */
  lemma ObjectRowComma(ms: seq<Member>, i: nat)
    requires i < |ms|
    ensures EndsWith(ObjectRow(ms, i), CommaHtml + RowClose) <==> i + 1 < |ms|
  {
    RenderEndsWithoutComma(ms[i].value);
    RowTail(ObjectRowOpen(ms[i].key), Render(ms[i].value), i + 1 < |ms|);
  }
}
