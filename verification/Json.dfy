/** JSON values and JSON pointers (RFC 6901), as the key broker looks them up. */
module Json {
  import opened Common
  import opened Decimals

  datatype Json =
    | Null
    | Bool(flag: bool)
    | Num(number: int)
    | Str(text: string)
    | Arr(items: seq<Json>)
    | Obj(fields: map<string, Json>)

  function Fetch<V>(m: map<string, V>, name: string): Option<V> {
    if name in m then Some(m[name]) else None
  }

  function Field(v: Json, name: string): Option<Json> {
    if v.Obj? then Fetch(v.fields, name) else None
  }

  // ---- Pointers ----

  /** The parts of a text between the separators; always at least one. */
  function Parts(s: string, separator: char): (r: seq<string>)
    ensures |r| >= 1
  {
    if s == "" then [""]
    else
      var rest := Parts(s[1..], separator);
      if s[0] == separator then [""] + rest else [[s[0]] + rest[0]] + rest[1..]
  }

  /** Replaces every occurrence of the two characters `a`, `b`, scanning from the left. */
  function Replaced(s: string, a: char, b: char, c: char): string {
    if |s| < 2 then s
    else if s[0] == a && s[1] == b then [c] + Replaced(s[2..], a, b, c)
    else [s[0]] + Replaced(s[1..], a, b, c)
  }

  function Unescaped(token: string): string {
    Replaced(Replaced(token, '~', '1', '/'), '~', '0', '~')
  }

  /** Array positions have no sign and no leading zero. */
  function ArrayIndex(token: string): Option<nat> {
    if token == "" || (token[0] == '0' && |token| != 1) then None else DigitsValue(token)
  }

  function Child(v: Json, token: string): Option<Json> {
    match v
    case Obj(fields) => Fetch(fields, token)
    case Arr(items) =>
      var i := ArrayIndex(token);
      if i.Some? && i.value < |items| then Some(items[i.value]) else None
    case _ => None
  }

  function Walk(v: Json, tokens: seq<string>): Option<Json> {
    if tokens == [] then Some(v)
    else match Child(v, tokens[0])
      case Some(next) => Walk(next, tokens[1..])
      case None => None
  }

  function AllUnescaped(tokens: seq<string>): seq<string> {
    if tokens == [] then [] else [Unescaped(tokens[0])] + AllUnescaped(tokens[1..])
  }

  function Pointer(v: Json, path: string): Option<Json> {
    if path == "" then Some(v)
    else if path[0] != '/' then None
    else Walk(v, AllUnescaped(Parts(path, '/')[1..]))
  }

  // ---- Reading a pointer back into its tokens ----

  /** A token as it is written in a pointer: `~0` stands for a tilde, `~1` for a slash. */
  function Escaped(token: string): (t: string)
    ensures '/' !in t
  {
    if token == "" then ""
    else
      (if token[0] == '~' then ['~', '0'] else if token[0] == '/' then ['~', '1'] else [token[0]]) + Escaped(token[1..])
  }

  /** The same with slashes written out, half way of reading it back. */
  function HalfEscaped(token: string): string {
    if token == "" then "" else (if token[0] == '~' then ['~', '0'] else [token[0]]) + HalfEscaped(token[1..])
  }

  /** The pointer with the given tokens. */
  function Joined(tokens: seq<string>): string {
    if tokens == [] then "" else "/" + (Escaped(tokens[0]) + Joined(tokens[1..]))
  }

  lemma {:induction false} PartsOfPlain(token: string, rest: string)
    requires '/' !in token
    ensures Parts(token + rest, '/') == [token + Parts(rest, '/')[0]] + Parts(rest, '/')[1..]
  {
    var p := Parts(rest, '/');
    if token == "" {
      assert token + rest == rest && token + p[0] == p[0];
      HeadTail(p);
    } else {
      assert (token + rest)[0] == token[0] && (token + rest)[1..] == token[1..] + rest;
      PartsOfPlain(token[1..], rest);
      HeadTail(token);
      Assoc([token[0]], token[1..], p[0]);
    }
  }

  function AllEscaped(tokens: seq<string>): seq<string> {
    if tokens == [] then [] else [Escaped(tokens[0])] + AllEscaped(tokens[1..])
  }

  lemma {:induction false} PartsOfJoined(tokens: seq<string>)
    ensures Parts(Joined(tokens), '/') == [""] + AllEscaped(tokens)
  {
    if tokens != [] {
      var rest := Joined(tokens[1..]);
      PartsOfJoined(tokens[1..]);
      PartsOfPlain(Escaped(tokens[0]), rest);
      assert ("/" + (Escaped(tokens[0]) + rest))[1..] == Escaped(tokens[0]) + rest;
      Split([""], AllEscaped(tokens[1..]));
      assert Escaped(tokens[0]) + "" == Escaped(tokens[0]);
    }
  }

  lemma ReplacedSkips(x: char, rest: string, a: char, b: char, c: char)
    requires x != a
    ensures Replaced([x] + rest, a, b, c) == [x] + Replaced(rest, a, b, c)
  {
    if rest != "" {
      Split([x], rest);
    } else {
      assert [x] + rest == [x] && Replaced("", a, b, c) == "";
    }
  }

  lemma ReplacedPair(x: char, rest: string, b: char, c: char)
    requires x != '~'
    ensures Replaced(['~', x] + rest, '~', b, c)
         == if x == b then [c] + Replaced(rest, '~', b, c) else ['~', x] + Replaced(rest, '~', b, c)
  {
    var s := ['~', x] + rest;
    assert s[2..] == rest && s[1..] == [x] + rest;
    if x != b {
      ReplacedSkips(x, rest, '~', b, c);
      assert ['~'] + ([x] + Replaced(rest, '~', b, c)) == ['~', x] + Replaced(rest, '~', b, c);
    }
  }

  lemma {:induction false} SlashesReadBack(token: string)
    ensures Replaced(Escaped(token), '~', '1', '/') == HalfEscaped(token)
  {
    if token != "" {
      SlashesReadBack(token[1..]);
      if token[0] == '~' {
        ReplacedPair('0', Escaped(token[1..]), '1', '/');
      } else if token[0] == '/' {
        ReplacedPair('1', Escaped(token[1..]), '1', '/');
      } else {
        ReplacedSkips(token[0], Escaped(token[1..]), '~', '1', '/');
      }
    }
  }

  lemma {:induction false} TildesReadBack(token: string)
    ensures Replaced(HalfEscaped(token), '~', '0', '~') == token
  {
    if token != "" {
      TildesReadBack(token[1..]);
      HeadTail(token);
      if token[0] == '~' {
        ReplacedPair('0', HalfEscaped(token[1..]), '0', '~');
      } else {
        ReplacedSkips(token[0], HalfEscaped(token[1..]), '~', '0', '~');
      }
    }
  }

  lemma {:induction false} TokensReadBack(tokens: seq<string>)
    ensures AllUnescaped(AllEscaped(tokens)) == tokens
  {
    if tokens != [] {
      SlashesReadBack(tokens[0]);
      TildesReadBack(tokens[0]);
      TokensReadBack(tokens[1..]);
      Split([Escaped(tokens[0])], AllEscaped(tokens[1..]));
      HeadTail(tokens);
    }
  }

  /** A pointer made of any tokens descends along exactly these. */
  lemma PointerWalks(v: Json, tokens: seq<string>)
    ensures Pointer(v, Joined(tokens)) == Walk(v, tokens)
  {
    PartsOfJoined(tokens);
    TokensReadBack(tokens);
    Split([""], AllEscaped(tokens));
  }

  /** A token selects an array item exactly if it is the decimal text of its position. */
  lemma ItemAt(items: seq<Json>, token: string, i: nat)
    ensures ArrayIndex(token) == Some(i) <==> token == Decimal(i)
    ensures i < |items| ==> Child(Arr(items), Decimal(i)) == Some(items[i])
  {
    DecimalReadsBack(i);
    if ArrayIndex(token) == Some(i) {
      DigitsAreDecimal(token);
    }
    DecimalParts(i);
  }
}
