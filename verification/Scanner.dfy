/**
Finding a JSON object inside the text a model wrote around it: a scan of brace depth that knows
about strings, shown to be a left inverse of writing the object out.
*/
module Scanner {
  import opened Options

  // ---- the scanner ----

  datatype Scan = Scan(depth: int, inString: bool, escaped: bool)

  const Start := Scan(0, false, false)

  /** Whether this character closes the outermost object. */
  predicate Closes(st: Scan, c: char) {
    !st.escaped && !st.inString && c == '}' && st.depth == 1
  }

  function Advance(st: Scan, c: char): Scan {
    if st.escaped then st.(escaped := false)
    else if c == '\\' && st.inString then st.(escaped := true)
    else if c == '"' then st.(inString := !st.inString)
    else if st.inString then st
    else if c == '{' then st.(depth := st.depth + 1)
    else if c == '}' then st.(depth := st.depth - 1)
    else st
  }

  /** How many characters are read up to and including the closing brace. */
  function ReadTo(st: Scan, text: string): (n: Option<nat>)
    ensures n.Some? ==> n.value <= |text|
    decreases |text|
  {
    if text == [] then None
    else if Closes(st, text[0]) then Some(1)
    else
      match ReadTo(Advance(st, text[0]), text[1..])
      case None => None
      case Some(n) => Some(n + 1)
  }

  function After(n: nat, rest: Option<nat>): Option<nat> {
    match rest
    case None => None
    case Some(m) => Some(n + m)
  }

  lemma ReadNext(st: Scan, text: string, i: nat)
    requires i < |text|
    ensures ReadTo(st, text[i..])
         == if Closes(st, text[i]) then Some(1) else After(1, ReadTo(Advance(st, text[i]), text[i + 1..]))
  {
    assert text[i..][0] == text[i] && text[i..][1..] == text[i + 1..];
  }

  /** `strings.IndexByte(text, '{')`. */
  function FirstBrace(text: string): (i: Option<nat>)
    ensures i.Some? ==> i.value < |text| && text[i.value] == '{' && forall j :: 0 <= j < i.value ==> text[j] != '{'
    ensures i.None? ==> forall j :: 0 <= j < |text| ==> text[j] != '{'
  {
    if text == [] then None
    else if text[0] == '{' then Some(0)
    else
      match FirstBrace(text[1..])
      case None => None
      case Some(i) => Some(i + 1)
  }

  datatype Answer = Found(written: string) | NoObject | NotClosed | DoesNotParse

  /** What the search answers, given which texts parse. */
  function ObjectIn(text: string, parses: string -> bool): Answer {
    match FirstBrace(text)
    case None => NoObject
    case Some(start) =>
      match ReadTo(Start, text[start..])
      case None => NotClosed
      case Some(n) =>
        var candidate := text[start..start + n];
        if parses(candidate) then Found(candidate) else DoesNotParse
  }

  /** The scanning loop: how many characters from the first brace to the one that closes it. */
  method ClosingBrace(text: string, start: nat) returns (n: Option<nat>)
    requires start <= |text|
    ensures n == ReadTo(Start, text[start..])
  {
    var depth, inString, escaped := 0, false, false;
    for i := start to |text|
      invariant ReadTo(Start, text[start..]) == After(i - start, ReadTo(Scan(depth, inString, escaped), text[i..]))
    {
      var c := text[i];
      ReadNext(Scan(depth, inString, escaped), text, i);
      if escaped {
        escaped := false;
      } else if c == '\\' && inString {
        escaped := true;
      } else if c == '"' {
        inString := !inString;
      } else if inString {
        // Braces inside a string are text.
      } else if c == '{' {
        depth := depth + 1;
      } else if c == '}' {
        depth := depth - 1;
        if depth == 0 {
          return Some(i + 1 - start);
        }
      }
    }
    return None;
  }

  method JsonObjectIn(text: string, parses: string -> bool) returns (r: Answer)
    ensures r == ObjectIn(text, parses)
  {
    var start := FirstBrace(text);
    if start.None? {
      return NoObject;
    }
    var n := ClosingBrace(text, start.value);
    if n.None? {
      return NotClosed;
    }
    var candidate := text[start.value..start.value + n.value];
    return if parses(candidate) then Found(candidate) else DoesNotParse;
  }

  // ---- JSON texts ----

  /** One character of a string as written: itself, or a backslash and the character after it. */
  datatype StrChar = Plain(c: char) | Escape(c: char)

  /**
  A JSON text with its spacing. Numbers and escapes are kept as written and only constrained as
  far as the scanner could tell, so every text of RFC 8259 is covered.
  */
  datatype Json =
    | Word(text: string)
    | Str(body: seq<StrChar>)
    | Arr(open: string, items: Items)
    | Obj(open: string, members: Members)

  datatype Items =
    | NoItems
    | Item(before: string, value: Json, after: string, more: Items)

  datatype Members =
    | NoMembers
    | Member(before: string, key: seq<StrChar>, mid: string, value: Json, after: string, more: Members)

  /** The literal names, numbers, whitespace, commas and colons: none of these characters steer the scan. */
  predicate IsQuiet(s: string) {
    forall i :: 0 <= i < |s| ==> s[i] != '"' && s[i] != '\\' && s[i] != '{' && s[i] != '}'
  }

  predicate IsStringBody(body: seq<StrChar>) {
    forall i :: 0 <= i < |body| ==> body[i].Plain? ==> body[i].c != '"' && body[i].c != '\\'
  }

  predicate WellFormed(v: Json) {
    match v
    case Word(text) => IsQuiet(text)
    case Str(body) => IsStringBody(body)
    case Arr(open, items) => IsQuiet(open) && ItemsWellFormed(items)
    case Obj(open, members) => IsQuiet(open) && MembersWellFormed(members)
  }

  predicate ItemsWellFormed(items: Items) {
    match items
    case NoItems => true
    case Item(before, value, after, more) => IsQuiet(before) && WellFormed(value) && IsQuiet(after) && ItemsWellFormed(more)
  }

  predicate MembersWellFormed(members: Members) {
    match members
    case NoMembers => true
    case Member(before, key, mid, value, after, more) =>
      IsQuiet(before) && IsStringBody(key) && IsQuiet(mid) && WellFormed(value) && IsQuiet(after) && MembersWellFormed(more)
  }

  // ---- writing them out ----

  function RenderBody(body: seq<StrChar>): string {
    if body == [] then ""
    else (if body[0].Plain? then [body[0].c] else ['\\', body[0].c]) + RenderBody(body[1..])
  }

  function RenderString(body: seq<StrChar>): string {
    ['"'] + (RenderBody(body) + ['"'])
  }

  function Render(v: Json): string {
    match v
    case Word(text) => text
    case Str(body) => RenderString(body)
    case Arr(open, items) => ['['] + ((open + RenderItems(items)) + [']'])
    case Obj(open, members) => ['{'] + ((open + RenderMembers(members)) + ['}'])
  }

  function RenderItems(items: Items): string {
    match items
    case NoItems => ""
    case Item(before, value, after, more) =>
      before + (Render(value) + (after + ((if more.NoItems? then "" else ",") + RenderItems(more))))
  }

  function RenderMembers(members: Members): string {
    match members
    case NoMembers => ""
    case Member(before, key, mid, value, after, more) =>
      before + (RenderString(key) + ((":" + mid) + (Render(value) + (after + ((if more.NoMembers? then "" else ",") + RenderMembers(more))))))
  }

  // ---- the scan passes over rendered values ----

  /** The state a stretch of text leads to, unless something in it closes the object. */
  function Through(st: Scan, body: string): Option<Scan>
    decreases |body|
  {
    if body == [] then Some(st)
    else if Closes(st, body[0]) then None
    else Through(Advance(st, body[0]), body[1..])
  }

  /** Reading `body` from one scan state leads to another without closing anything. */
  predicate PassesOver(st: Scan, body: string, end: Scan) {
    Through(st, body) == Some(end)
  }

  lemma PassChar(st: Scan, c: char)
    requires !Closes(st, c)
    ensures PassesOver(st, [c], Advance(st, c))
  {
    assert [c][1..] == [];
  }

  lemma {:induction false} PassBoth(st: Scan, a: string, mid: Scan, b: string, end: Scan)
    requires PassesOver(st, a, mid) && PassesOver(mid, b, end)
    ensures PassesOver(st, a + b, end)
    decreases |a|
  {
    if a == [] {
      assert a + b == b;
    } else {
      PassBoth(Advance(st, a[0]), a[1..], mid, b, end);
      assert (a + b)[1..] == a[1..] + b;
    }
  }

  lemma {:induction false} PassThen(st: Scan, body: string, end: Scan, rest: string)
    requires PassesOver(st, body, end)
    ensures ReadTo(st, body + rest) == After(|body|, ReadTo(end, rest))
    decreases |body|
  {
    if body == [] {
      assert body + rest == rest;
    } else {
      PassThen(Advance(st, body[0]), body[1..], end, rest);
      assert (body + rest)[1..] == body[1..] + rest;
    }
  }

  lemma {:induction false} PassQuiet(d: int, s: string)
    requires IsQuiet(s)
    ensures PassesOver(Scan(d, false, false), s, Scan(d, false, false))
    decreases |s|
  {
    var st := Scan(d, false, false);
    if s == [] {
    } else {
      PassChar(st, s[0]);
      PassQuiet(d, s[1..]);
      PassBoth(st, [s[0]], st, s[1..], st);
      assert [s[0]] + s[1..] == s;
    }
  }

  lemma {:induction false} PassBody(d: int, body: seq<StrChar>)
    requires IsStringBody(body)
    ensures PassesOver(Scan(d, true, false), RenderBody(body), Scan(d, true, false))
    decreases |body|
  {
    var st := Scan(d, true, false);
    if body == [] {
    } else {
      PassBody(d, body[1..]);
      if body[0].Plain? {
        PassChar(st, body[0].c);
        PassBoth(st, [body[0].c], st, RenderBody(body[1..]), st);
      } else {
        PassChar(st, '\\');
        PassChar(Scan(d, true, true), body[0].c);
        PassBoth(st, ['\\'], Scan(d, true, true), [body[0].c], st);
        assert ['\\'] + [body[0].c] == ['\\', body[0].c];
        PassBoth(st, ['\\', body[0].c], st, RenderBody(body[1..]), st);
      }
    }
  }

  /** A bracketed stretch: one character in, a body, one character out. */
  lemma PassWrapped(st: Scan, first: char, inner: Scan, body: string, last: char, end: Scan)
    requires !Closes(st, first) && Advance(st, first) == inner
    requires PassesOver(inner, body, inner)
    requires !Closes(inner, last) && Advance(inner, last) == end
    ensures PassesOver(st, [first] + (body + [last]), end)
  {
    PassChar(st, first);
    PassChar(inner, last);
    PassBoth(inner, body, inner, [last], end);
    PassBoth(st, [first], inner, body + [last], end);
  }

  lemma PassString(d: int, body: seq<StrChar>)
    requires IsStringBody(body)
    ensures PassesOver(Scan(d, false, false), RenderString(body), Scan(d, false, false))
  {
    PassBody(d, body);
    PassWrapped(Scan(d, false, false), '"', Scan(d, true, false), RenderBody(body), '"', Scan(d, false, false));
  }

  /** Inside an object, a whole value leaves the scan where it was. */
  lemma {:induction false} PassValue(d: int, v: Json)
    requires d >= 1 && WellFormed(v)
    ensures PassesOver(Scan(d, false, false), Render(v), Scan(d, false, false))
    decreases v, 0
  {
    match v
    case Word(text) => PassQuiet(d, text);
    case Str(body) => PassString(d, body);
    case Arr(open, items) =>
      PassItems(d, items);
      PassArray(d, open, RenderItems(items));
    case Obj(open, members) =>
      PassInside(d + 1, open, members);
      PassObject(d, open + RenderMembers(members));
  }

  lemma PassArray(d: int, open: string, items: string)
    requires d >= 1 && IsQuiet(open)
    requires PassesOver(Scan(d, false, false), items, Scan(d, false, false))
    ensures PassesOver(Scan(d, false, false), ['['] + ((open + items) + [']']), Scan(d, false, false))
  {
    var st := Scan(d, false, false);
    PassQuiet(d, open);
    PassBoth(st, open, st, items, st);
    PassWrapped(st, '[', st, open + items, ']', st);
  }

  lemma PassObject(d: int, inside: string)
    requires d >= 1
    requires PassesOver(Scan(d + 1, false, false), inside, Scan(d + 1, false, false))
    ensures PassesOver(Scan(d, false, false), ['{'] + (inside + ['}']), Scan(d, false, false))
  {
    PassWrapped(Scan(d, false, false), '{', Scan(d + 1, false, false), inside, '}', Scan(d, false, false));
  }

  lemma {:induction false} PassItems(d: int, items: Items)
    requires d >= 1 && ItemsWellFormed(items)
    ensures PassesOver(Scan(d, false, false), RenderItems(items), Scan(d, false, false))
    decreases items, 0
  {
    var st := Scan(d, false, false);
    match items
    case NoItems =>
    case Item(before, value, after, more) =>
      var comma := if more.NoItems? then "" else ",";
      PassQuiet(d, before);
      PassValue(d, value);
      PassQuiet(d, after);
      PassQuiet(d, comma);
      PassItems(d, more);
      PassBoth(st, comma, st, RenderItems(more), st);
      PassBoth(st, after, st, comma + RenderItems(more), st);
      PassBoth(st, Render(value), st, after + (comma + RenderItems(more)), st);
      PassBoth(st, before, st, Render(value) + (after + (comma + RenderItems(more))), st);
  }

  lemma {:induction false} PassMembers(d: int, members: Members)
    requires d >= 1 && MembersWellFormed(members)
    ensures PassesOver(Scan(d, false, false), RenderMembers(members), Scan(d, false, false))
    decreases members, 0
  {
    var st := Scan(d, false, false);
    match members
    case NoMembers =>
    case Member(before, key, mid, value, after, more) =>
      var comma := if more.NoMembers? then "" else ",";
      PassQuiet(d, before);
      PassString(d, key);
      PassQuiet(d, ":" + mid);
      PassValue(d, value);
      PassQuiet(d, after);
      PassQuiet(d, comma);
      PassMembers(d, more);
      PassBoth(st, comma, st, RenderMembers(more), st);
      var tail := after + (comma + RenderMembers(more));
      PassBoth(st, after, st, comma + RenderMembers(more), st);
      PassBoth(st, Render(value), st, tail, st);
      PassBoth(st, ":" + mid, st, Render(value) + tail, st);
      PassBoth(st, RenderString(key), st, (":" + mid) + (Render(value) + tail), st);
      PassBoth(st, before, st, RenderString(key) + ((":" + mid) + (Render(value) + tail)), st);
  }

  /** What stands between the braces of an object. */
  lemma {:induction false} PassInside(d: int, open: string, members: Members)
    requires d >= 1 && IsQuiet(open) && MembersWellFormed(members)
    ensures PassesOver(Scan(d, false, false), open + RenderMembers(members), Scan(d, false, false))
    decreases members, 1
  {
    var st := Scan(d, false, false);
    PassQuiet(d, open);
    PassMembers(d, members);
    PassBoth(st, open, st, RenderMembers(members), st);
  }

  /** From the start, an object is read to its own last brace whatever follows. */
  lemma ReadsWholeObject(v: Json, suffix: string)
    requires v.Obj? && WellFormed(v)
    ensures ReadTo(Start, Render(v) + suffix) == Some(|Render(v)|)
  {
    PassInside(1, v.open, v.members);
    ReadsBraces(v.open + RenderMembers(v.members), suffix);
  }

  lemma ReadsBraces(inside: string, suffix: string)
    requires PassesOver(Scan(1, false, false), inside, Scan(1, false, false))
    ensures ReadTo(Start, ['{'] + (inside + ['}']) + suffix) == Some(|inside| + 2)
  {
    var inner, tail := Scan(1, false, false), ['}'] + suffix;
    PassChar(Start, '{');
    PassBoth(Start, ['{'], inner, inside, inner);
    ReadsClosing(suffix);
    PassThen(Start, ['{'] + inside, inner, tail);
    assert ['{'] + (inside + ['}']) + suffix == (['{'] + inside) + tail;
  }

  lemma ReadsClosing(suffix: string)
    ensures ReadTo(Scan(1, false, false), ['}'] + suffix) == Some(1)
  {
    assert (['}'] + suffix)[0] == '}';
  }

  lemma {:induction false} SkipsPrefix(prefix: string, rest: string)
    requires rest != "" && rest[0] == '{'
    requires forall i :: 0 <= i < |prefix| ==> prefix[i] != '{'
    ensures FirstBrace(prefix + rest) == Some(|prefix|)
  {
    if prefix == [] {
      assert prefix + rest == rest;
    } else {
      SkipsPrefix(prefix[1..], rest);
      assert (prefix + rest)[1..] == prefix[1..] + rest;
    }
  }

  /**
  The round trip. Any JSON object, however it is spaced and whatever quotes, backslashes and
  braces its strings hold, is found exactly as written inside any text: behind any prefix
  without an opening brace, and in front of anything at all.
  */
  lemma FindsTheObject(v: Json, prefix: string, suffix: string, parses: string -> bool)
    requires v.Obj? && WellFormed(v) && parses(Render(v))
    requires forall i :: 0 <= i < |prefix| ==> prefix[i] != '{'
    ensures ObjectIn(prefix + Render(v) + suffix, parses) == Found(Render(v))
  {
    var written := Render(v);
    assert prefix + written + suffix == prefix + (written + suffix);
    SkipsPrefix(prefix, written + suffix);
    ReadsWholeObject(v, suffix);
    var text := prefix + (written + suffix);
    assert text[|prefix|..] == written + suffix;
    assert text[|prefix|..|prefix| + |written|] == written;
  }

  /** A reply cut off inside the object is reported as such, never answered with a fragment. */
  lemma {:induction false} TruncationIsReported(v: Json, prefix: string, cut: nat, parses: string -> bool)
    requires v.Obj? && WellFormed(v) && 0 < cut < |Render(v)|
    requires forall i :: 0 <= i < |prefix| ==> prefix[i] != '{'
    ensures ObjectIn(prefix + Render(v)[..cut], parses) == NotClosed
  {
    var part := Render(v)[..cut];
    SkipsPrefix(prefix, part);
    assert (prefix + part)[|prefix|..] == part;
    if ReadTo(Start, part).Some? {
      assert Render(v) == part + Render(v)[cut..];
      ReadingAhead(Start, part, Render(v)[cut..]);
      assert Render(v) + "" == Render(v);
      ReadsWholeObject(v, "");
      assert false;
    }
  }

  /** A closing brace found is found whatever follows. */
  lemma {:induction false} ReadingAhead(st: Scan, text: string, more: string)
    requires ReadTo(st, text).Some?
    ensures ReadTo(st, text + more) == ReadTo(st, text)
    decreases |text|
  {
    assert (text + more)[0] == text[0];
    if !Closes(st, text[0]) {
      assert (text + more)[1..] == text[1..] + more;
      ReadingAhead(Advance(st, text[0]), text[1..], more);
    }
  }
}
