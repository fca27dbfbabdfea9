// JSON values, and JSON Pointers (RFC 6901 sections 3 and 4) as the diff writer
// prints them and the patch reader parses them.
module JsonPointers {

  datatype Json = Null | Bool(b: bool) | Num(value: real) | Str(text: string) | Arr(items: seq<Json>) | Obj(fields: map<string, Json>)

  datatype Option<+T> = None | Some(value: T)

  type Path = seq<string>

  // ---- escaping -----------------------------------------------------------------

  function EscapeChar(c: char): string {
    if c == '~' then "~0" else if c == '/' then "~1" else [c]
  }

  function Escape(token: string): string {
    if token == "" then "" else Escape(token[..|token| - 1]) + EscapeChar(token[|token| - 1])
  }

  // A tilde is written "~0", a slash "~1", everything else as it is.
  lemma EscapedForms(token: string, c: char)
    ensures Escape(token + ['~']) == Escape(token) + "~0" && Escape(token + ['/']) == Escape(token) + "~1"
    ensures c != '~' && c != '/' ==> Escape(token + [c]) == Escape(token) + [c]
  {
    assert forall d :: (token + [d])[..|token|] == token;
  }

  method EscapePointerToken(token: string) returns (out: string)
    ensures out == Escape(token)
  {
    out := "";
    for i := 0 to |token|
      invariant out == Escape(token[..i])
    {
      assert token[..i + 1][..i] == token[..i];
      out := out + if token[i] == '~' then "~0" else if token[i] == '/' then "~1" else [token[i]];
    }
    assert token[..|token|] == token;
  }

  // Left-to-right replacement of every "~d" by one character.
  function Substitute(s: string, digit: char, mark: char): string {
    if |s| < 2 then s
    else if s[0] == '~' && s[1] == digit then [mark] + Substitute(s[2..], digit, mark)
    else [s[0]] + Substitute(s[1..], digit, mark)
  }

  // The reader's two passes: slashes first, tildes second.
  function Unescape(s: string): string {
    Substitute(Substitute(s, '1', '/'), '0', '~')
  }

  // Every '~' starts one of the two escapes.
  predicate WellEscaped(s: string) {
    s == "" || (if s[0] == '~' then |s| > 1 && (s[1] == '0' || s[1] == '1') && WellEscaped(s[2..]) else WellEscaped(s[1..]))
  }

  // The same escaping, read from the front.
  function EscapeFront(token: string): string {
    if token == "" then "" else EscapeChar(token[0]) + EscapeFront(token[1..])
  }

  lemma {:induction false} EscapeFrontAppend(a: string, c: char)
    ensures EscapeFront(a + [c]) == EscapeFront(a) + EscapeChar(c)
  {
    if a == "" {
      assert a + [c] == [c];
      assert EscapeFront([c][1..]) == "";
    } else {
      assert (a + [c])[1..] == a[1..] + [c];
      EscapeFrontAppend(a[1..], c);
    }
  }

  lemma {:induction false} EscapeIsEscapeFront(token: string)
    ensures Escape(token) == EscapeFront(token)
  {
    if token != "" {
      var n := |token| - 1;
      EscapeIsEscapeFront(token[..n]);
      EscapeFrontAppend(token[..n], token[n]);
      assert token[..n] + [token[n]] == token;
    }
  }

  // Tildes escaped, slashes restored: what the first pass leaves.
  function Halfway(token: string): string {
    if token == "" then "" else (if token[0] == '~' then "~0" else [token[0]]) + Halfway(token[1..])
  }

  lemma {:induction false} FirstPass(token: string)
    ensures Substitute(EscapeFront(token), '1', '/') == Halfway(token)
  {
    if token != "" {
      FirstPass(token[1..]);
      FirstPassStep(token[0], EscapeFront(token[1..]));
    }
  }

  lemma FirstPassStep(c: char, rest: string)
    ensures Substitute(EscapeChar(c) + rest, '1', '/') == (if c == '~' then "~0" else [c]) + Substitute(rest, '1', '/')
  {
    if c == '~' {
      assert "~0" + rest == ['~'] + (['0'] + rest);
      assert ("~0" + rest)[1..] == ['0'] + rest;
      KeepsPlain(rest, '0', '1', '/');
      assert Substitute("~0" + rest, '1', '/') == ['~'] + Substitute(['0'] + rest, '1', '/');
      assert ['~'] + (['0'] + Substitute(rest, '1', '/')) == "~0" + Substitute(rest, '1', '/');
    } else if c == '/' {
      assert ("~1" + rest)[2..] == rest;
    } else {
      KeepsPlain(rest, c, '1', '/');
    }
  }

  lemma KeepsPlain(rest: string, c: char, digit: char, mark: char)
    requires c != '~'
    ensures Substitute([c] + rest, digit, mark) == [c] + Substitute(rest, digit, mark)
  {
    assert ([c] + rest)[1..] == rest;
  }

  lemma {:induction false} SecondPass(token: string)
    ensures Substitute(Halfway(token), '0', '~') == token
  {
    if token != "" {
      SecondPass(token[1..]);
      var rest := Halfway(token[1..]);
      var whole := Halfway(token);
      if token[0] == '~' {
        assert whole[2..] == rest;
      } else {
        assert whole == [token[0]] + rest;
        KeepsPlain(rest, token[0], '0', '~');
      }
    }
  }

  // Escaping and unescaping is the identity on every token; an escaped token
  // holds no separator.
  lemma EscapeRoundTrip(token: string)
    ensures Unescape(Escape(token)) == token
    ensures '/' !in Escape(token) && WellEscaped(Escape(token))
  {
    EscapeIsEscapeFront(token);
    FirstPass(token);
    SecondPass(token);
    EscapedIsClean(token);
  }

  lemma {:induction false} EscapedIsClean(token: string)
    ensures '/' !in EscapeFront(token) && WellEscaped(EscapeFront(token))
  {
    if token != "" {
      EscapedIsClean(token[1..]);
      var rest := EscapeFront(token[1..]);
      var whole := EscapeFront(token);
      if token[0] == '~' || token[0] == '/' {
        assert whole[2..] == rest;
      } else {
        assert whole == [token[0]] + rest && whole[1..] == rest;
      }
    }
  }

  // ---- pointers -----------------------------------------------------------------

  function Pointer(path: Path): string {
    if path == [] then "" else Pointer(path[..|path| - 1]) + "/" + Escape(path[|path| - 1])
  }

  function PointerFront(path: Path): string {
    if path == [] then "" else ['/'] + (Escape(path[0]) + PointerFront(path[1..]))
  }

  lemma {:induction false} PointerAppend(a: Path, b: Path)
    ensures Pointer(a + b) == Pointer(a) + Pointer(b)
  {
    if b == [] {
      assert a + b == a;
    } else {
      var n := |b| - 1;
      assert (a + b)[..|a + b| - 1] == a + b[..n];
      PointerAppend(a, b[..n]);
    }
  }

  lemma PointerOfOne(token: string)
    ensures Pointer([token]) == "/" + Escape(token)
  {
    assert Pointer([token][..0]) == "";
  }

  lemma {:induction false} PointerIsPointerFront(path: Path)
    ensures Pointer(path) == PointerFront(path)
  {
    hide Escape;
    if path != [] {
      var rest := path[1..];
      PointerIsPointerFront(rest);
      FrontParts(path);
      hide Pointer, PointerFront;
      PointerAppend([path[0]], rest);
      PointerOfOne(path[0]);
      assert [path[0]] + rest == path;
      assert ("/" + Escape(path[0])) + Pointer(rest) == ['/'] + (Escape(path[0]) + Pointer(rest));
    } else {
      assert Pointer(path) == "" == PointerFront(path);
    }
  }

  function Split(s: string): (r: seq<string>)
    ensures |r| > 0
  {
    if s == "" then [""]
    else if s[0] == '/' then [""] + Split(s[1..])
    else var rest := Split(s[1..]); [[s[0]] + rest[0]] + rest[1..]
  }

  lemma {:induction false} SplitAtSlash(a: string, b: string)
    requires '/' !in a
    ensures Split(a) == [a] && Split(a + "/" + b) == [a] + Split(b)
  {
    if a == "" {
      assert a + "/" + b == "/" + b && ("/" + b)[1..] == b;
    } else {
      SplitAtSlash(a[1..], b);
      assert (a + "/" + b)[1..] == a[1..] + "/" + b;
      assert [a[0]] + a[1..] == a;
    }
  }

  // The strict reader: None for a malformed pointer.
  function Tokens(pointer: string): Option<Path> {
    if pointer == "" then Some([])
    else if pointer[0] != '/' then None
    else var parts := Split(pointer[1..]);
      if forall i :: 0 <= i < |parts| ==> WellEscaped(parts[i]) then Some(seq(|parts|, i requires 0 <= i < |parts| => Unescape(parts[i]))) else None
  }

  function Escaped(path: Path): seq<string> {
    seq(|path|, i requires 0 <= i < |path| => Escape(path[i]))
  }

  lemma EscapedCons(path: Path)
    requires path != []
    ensures Escaped(path) == [Escape(path[0])] + Escaped(path[1..])
  {
  }

  lemma FrontParts(path: Path)
    requires path != []
    ensures var front := PointerFront(path);
      front != "" && front[0] == '/' && front[1..] == Escape(path[0]) + PointerFront(path[1..])
      && front == ['/'] + (Escape(path[0]) + PointerFront(path[1..]))
  {
  }

  lemma {:induction false} SplitPointer(path: Path)
    requires path != []
    ensures PointerFront(path)[0] == '/' && Split(PointerFront(path)[1..]) == Escaped(path)
  {
    hide Escape, Split, Escaped;
    var first, rest := Escape(path[0]), PointerFront(path[1..]);
    EscapeRoundTrip(path[0]);
    FrontParts(path);
    EscapedCons(path);
    if |path| == 1 {
      SplitAtSlash(first, "");
      assert path[1..] == [];
      NoneEscaped(path[1..]);
      assert first + "" == first && [first] + [] == [first];
    } else {
      hide PointerFront;
      SplitPointer(path[1..]);
      SlashFirst(first, rest);
      SplitAtSlash(first, rest[1..]);
    }
  }

  lemma SlashFirst(first: string, rest: string)
    requires rest != "" && rest[0] == '/'
    ensures first + rest == first + "/" + rest[1..]
  {
    assert rest == "/" + rest[1..];
  }

  lemma NoneEscaped(path: Path)
    requires path == []
    ensures Escaped(path) == [] && PointerFront(path) == ""
  {
  }

  // The reader's parse undoes the writer's printing, for every path.
  lemma PointerRoundTrip(path: Path)
    ensures Tokens(Pointer(path)) == Some(path)
  {
    hide Split, Escape, Unescape, WellEscaped;
    PointerIsPointerFront(path);
    if path != [] {
      SplitPointer(path);
      var parts := Escaped(path);
      forall i | 0 <= i < |path|
        ensures WellEscaped(parts[i]) && Unescape(parts[i]) == path[i]
      {
        EscapeRoundTrip(path[i]);
      }
      assert seq(|parts|, i requires 0 <= i < |parts| => Unescape(parts[i])) == path;
    }
  }

  // ---- pointers as table keys -------------------------------------------------------

  // Two texts that each start with a slash-free part agree there when one is a
  // prefix of the other.
  lemma SameFirst(x: string, u: string, y: string, v: string)
    requires '/' !in x && '/' !in y && u != "" && u[0] == '/' && (v == "" || v[0] == '/')
    ensures x + u <= y + v <==> x == y && u <= v
  {
    var s, t := x + u, y + v;
    assert forall i :: 0 <= i < |x| ==> s[i] == x[i] && x[i] in x;
    assert forall i :: 0 <= i < |y| ==> t[i] == y[i] && y[i] in y;
    assert s[|x|] == '/' && (v != "" ==> t[|y|] == '/');
    assert s[|x|..] == u && t[|y|..] == v && s[..|x|] == x && t[..|y|] == y;
    if s <= t {
      assert |x| >= |y|;
      assert v != "" && |x| == |y|;
      assert x == s[..|x|] == t[..|x|] == y;
    }
    if x == y && u <= v {
      assert v == u + v[|u|..] && t == s + v[|u|..];
    }
  }

  lemma {:induction false} FrontBelow(p: Path, q: Path)
    ensures PointerFront(p) + "/" <= PointerFront(q) <==> p < q
  {
    hide Escape;
    if p == [] {
      if q != [] { FrontParts(q); }
    } else if q != [] {
      FrontParts(p);
      FrontParts(q);
      EscapeRoundTrip(p[0]);
      EscapeRoundTrip(q[0]);
      FrontBelow(p[1..], q[1..]);
      FrontBelowStep(p, q);
    } else {
      FrontParts(p);
    }
  }

  lemma FrontBelowStep(p: Path, q: Path)
    requires p != [] && q != [] && '/' !in Escape(p[0]) && '/' !in Escape(q[0])
    requires Unescape(Escape(p[0])) == p[0] && Unescape(Escape(q[0])) == q[0]
    ensures PointerFront(p) + "/" <= PointerFront(q) <==> p[0] == q[0] && PointerFront(p[1..]) + "/" <= PointerFront(q[1..])
  {
    hide Escape, Unescape, PointerFront;
    var x, u, y, v := Escape(p[0]), PointerFront(p[1..]) + "/", Escape(q[0]), PointerFront(q[1..]);
    FrontParts(q);
    FrontStart(p[1..]);
    FrontStart(q[1..]);
    ClosedFront(p);
    DropFirst('/', x + u, y + v);
    SameFirst(x, u, y, v);
  }

  lemma FrontStart(p: Path)
    ensures PointerFront(p) == "" || PointerFront(p)[0] == '/'
    ensures (PointerFront(p) + "/")[0] == '/'
  {
    if p != [] { FrontParts(p); }
  }

  lemma ClosedFront(p: Path)
    requires p != []
    ensures PointerFront(p) + "/" == ['/'] + (Escape(p[0]) + (PointerFront(p[1..]) + "/"))
  {
    hide Escape, PointerFront;
    FrontParts(p);
    Regroup(Escape(p[0]), PointerFront(p[1..]));
  }

  lemma Regroup(x: string, y: string)
    ensures (['/'] + (x + y)) + "/" == ['/'] + (x + (y + "/"))
  {
  }

  lemma DropFirst(c: char, s: string, t: string)
    ensures [c] + s <= [c] + t <==> s <= t
  {
    assert ([c] + s)[1..] == s && ([c] + t)[1..] == t;
    assert s <= t ==> t == s + t[|s|..];
    assert [c] + s <= [c] + t ==> [c] + t == ([c] + s) + ([c] + t)[|s| + 1..];
  }

  // ---- the strict reader accepts printed pointers only -------------------------------

  lemma {:induction false} EscapeUndoesUnescape(t: string)
    requires WellEscaped(t) && '/' !in t
    ensures EscapeFront(Unescape(t)) == t
  {
    if t != "" {
      if t[0] == '~' {
        var rest := t[2..];
        EscapeUndoesUnescape(rest);
        assert t == [t[0]] + ([t[1]] + rest) && t[1..] == [t[1]] + rest;
        UnescapeEscape(t[1], rest);
        Cons(if t[1] == '0' then '~' else '/', Unescape(rest));
      } else {
        EscapeUndoesUnescape(t[1..]);
        KeepsPlain(t[1..], t[0], '1', '/');
        KeepsPlain(Substitute(t[1..], '1', '/'), t[0], '0', '~');
        assert t == [t[0]] + t[1..];
        Cons(t[0], Unescape(t[1..]));
      }
    }
  }

  lemma Cons(c: char, s: string)
    ensures EscapeFront([c] + s) == EscapeChar(c) + EscapeFront(s)
  {
    assert ([c] + s)[1..] == s;
  }

  lemma UnescapeEscape(d: char, rest: string)
    requires d == '0' || d == '1'
    ensures Unescape(['~'] + ([d] + rest)) == [if d == '0' then '~' else '/'] + Unescape(rest)
  {
    var s := ['~'] + ([d] + rest);
    assert s[1..] == [d] + rest && s[2..] == rest;
    var inner := Substitute(rest, '1', '/');
    if d == '1' {
      assert Substitute(s, '1', '/') == ['/'] + inner;
      KeepsPlain(inner, '/', '0', '~');
    } else {
      KeepsPlain(rest, '0', '1', '/');
      assert Substitute(s, '1', '/') == ['~'] + (['0'] + inner);
      var t := ['~'] + (['0'] + inner);
      assert t[2..] == inner;
    }
  }

  function Rejoined(parts: seq<string>): string {
    if parts == [] then "" else "/" + (parts[0] + Rejoined(parts[1..]))
  }

  lemma {:induction false} SplitRejoins(s: string)
    ensures Rejoined(Split(s)) == "/" + s && forall i :: 0 <= i < |Split(s)| ==> '/' !in Split(s)[i]
  {
    if s != "" {
      SplitRejoins(s[1..]);
      var rest := Split(s[1..]);
      assert s == [s[0]] + s[1..];
      if s[0] == '/' {
        assert ([""] + rest)[1..] == rest;
      } else {
        var parts := [[s[0]] + rest[0]] + rest[1..];
        assert parts[1..] == rest[1..];
        assert "/" + (rest[0] + Rejoined(rest[1..])) == "/" + s[1..];
        assert ("/" + (rest[0] + Rejoined(rest[1..])))[1..] == ("/" + s[1..])[1..];
        assert [s[0]] + rest[0] + Rejoined(rest[1..]) == [s[0]] + (rest[0] + Rejoined(rest[1..]));
      }
    }
  }

  lemma {:induction false} RejoinedIsPrinted(parts: seq<string>, path: Path)
    requires |path| == |parts| && forall i :: 0 <= i < |parts| ==> '/' !in parts[i] && WellEscaped(parts[i]) && path[i] == Unescape(parts[i])
    ensures PointerFront(path) == Rejoined(parts)
  {
    if parts != [] {
      RejoinedIsPrinted(parts[1..], path[1..]);
      EscapeUndoesUnescape(parts[0]);
      EscapeIsEscapeFront(path[0]);
      FrontParts(path);
      assert ['/'] + (parts[0] + Rejoined(parts[1..])) == "/" + (parts[0] + Rejoined(parts[1..]));
    }
  }

  // Whatever the strict reader accepts is the printed form of what it read.
  lemma PrinterUndoesReader(pointer: string)
    requires Tokens(pointer).Some?
    ensures Pointer(Tokens(pointer).value) == pointer
  {
    if pointer != "" {
      var rest := pointer[1..];
      SplitRejoins(rest);
      RejoinedIsPrinted(Split(rest), Tokens(pointer).value);
      assert "/" + rest == pointer;
      PointerIsPointerFront(Tokens(pointer).value);
    }
  }

  // The text tests of the difference table are the token tests: the same key
  // means the same path, and a key that starts with another and a slash is below.
  lemma KeysArePaths(p: Path, q: Path)
    ensures Pointer(p) == Pointer(q) <==> p == q
    ensures Pointer(p) + "/" <= Pointer(q) <==> p < q
  {
    PointerRoundTrip(p);
    PointerRoundTrip(q);
    PointerIsPointerFront(p);
    PointerIsPointerFront(q);
    FrontBelow(p, q);
  }

  // ---- array indices --------------------------------------------------------------

  function Digit(d: nat): char
    requires d < 10
  {
    ('0' as int + d) as char
  }

  function Decimal(n: nat): (r: string)
    ensures |r| > 0
  {
    if n < 10 then [Digit(n)] else Decimal(n / 10) + [Digit(n % 10)]
  }

  predicate IsDigits(s: string) {
    s != "" && forall i :: 0 <= i < |s| ==> '0' <= s[i] <= '9'
  }

  function NumberOf(s: string): nat
    requires forall i :: 0 <= i < |s| ==> '0' <= s[i] <= '9'
  {
    if s == "" then 0 else 10 * NumberOf(s[..|s| - 1]) + (s[|s| - 1] as int - '0' as int)
  }

  // An index the strict reader accepts: decimal digits without a leading zero.
  function IndexOf(token: string): Option<nat> {
    if IsDigits(token) && (|token| == 1 || token[0] != '0') then Some(NumberOf(token)) else None
  }

  // Indices are written and read in base ten, the highest digit first.
  lemma DecimalForms()
    ensures Decimal(0) == "0" && Decimal(9) == "9" && Decimal(1204) == "1204"
    ensures IndexOf("0") == Some(0) && IndexOf("1204") == Some(1204) && IndexOf("01") == None && IndexOf("-") == None && IndexOf("") == None
  {
    assert Decimal(12) == "12" && Decimal(120) == "120";
    IndexRoundTrip(0);
    IndexRoundTrip(1204);
    assert "-"[0] == '-';
  }

  lemma {:induction false} IndexRoundTrip(n: nat)
    ensures IndexOf(Decimal(n)) == Some(n)
    ensures n > 0 ==> Decimal(n)[0] != '0'
  {
    if n >= 10 {
      IndexRoundTrip(n / 10);
      var shorter := Decimal(n / 10);
      assert Decimal(n)[..|Decimal(n)| - 1] == shorter;
    } else {
      assert NumberOf([Digit(n)][..0]) == 0;
    }
  }

  lemma {:induction false} IndexIsDecimal(token: string)
    requires IndexOf(token).Some?
    ensures token == Decimal(IndexOf(token).value)
  {
    var n := |token| - 1;
    if n == 0 {
      assert NumberOf(token[..0]) == 0;
    } else {
      assert IsDigits(token[..n]) && token[..n][0] == token[0];
      NumberIsPositive(token[..n]);
      IndexIsDecimal(token[..n]);
      assert token == token[..n] + [token[n]];
    }
  }

  lemma {:induction false} NumberIsPositive(s: string)
    requires IsDigits(s) && s[0] != '0'
    ensures NumberOf(s) > 0
  {
    if |s| > 1 { NumberIsPositive(s[..|s| - 1]); }
  }
}
