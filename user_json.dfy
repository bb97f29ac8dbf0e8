/** The signed-in user and the text form it is stored under in the browser's
    key-value store (`JSON.stringify` on login, `JSON.parse` on restore).

    The text form is a JSON array of three values, `["id","email","role"]`,
    where an absent email or role is `null` and a string is written between
    double quotes with `"` and `\` escaped by a backslash. `Parse` accepts
    exactly the JSON literal `null` (no user) and texts of that shape. */
module UserJson {
  import opened Wrappers

  /** A user as the session holds it: `id`, `email?` and `user_metadata?.role`. */
  datatype User = User(id: string, email: Option<string>, role: Option<string>)

  /** Outcome of parsing stored text: `JSON.parse` throws, or yields a value. */
  datatype Parsed = Malformed | Value(user: Option<User>)

  predicate NeedsEscape(c: char) { c == '"' || c == '\\' }

  function EscapedChar(c: char): string {
    if NeedsEscape(c) then ['\\', c] else [c]
  }

  /** The characters of a JSON string literal between its quotes. */
  function Escape(s: string): (r: string)
    ensures |r| >= |s|
  {
    if s == [] then []
    else EscapedChar(s[0]) + Escape(s[1..])
  }

  function Quote(s: string): string { "\"" + Escape(s) + "\"" }

  function OptionalText(o: Option<string>): string {
    match o
    case None => "null"
    case Some(s) => Quote(s)
  }

  /** Stands in for `JSON.stringify(user)`: the array form described above. */
  function Serialize(u: User): (r: string)
    ensures |r| > 0 && r[0] == '['
  {
    "[" + Quote(u.id) + "," + OptionalText(u.email) + "," + OptionalText(u.role) + "]"
  }

  /** Reads the body of a string literal up to its closing quote; returns the
      unescaped text and what follows the closing quote. */
  function ParseBody(s: string): (r: Option<(string, string)>)
    ensures r.Some? ==> |r.value.1| < |s|
    decreases |s|
  {
    if s == [] then None
    else if s[0] == '"' then Some(([], s[1..]))
    else if s[0] == '\\' then
      if |s| >= 2 && NeedsEscape(s[1]) then
        match ParseBody(s[2..])
        case None => None
        case Some(p) => Some(([s[1]] + p.0, p.1))
      else None
    else
      match ParseBody(s[1..])
      case None => None
      case Some(p) => Some(([s[0]] + p.0, p.1))
  }

  function ParseString(s: string): Option<(string, string)> {
    if |s| > 0 && s[0] == '"' then ParseBody(s[1..]) else None
  }

  function ParseOptional(s: string): Option<(Option<string>, string)> {
    if |s| >= 4 && s[..4] == "null" then Some((None, s[4..]))
    else
      match ParseString(s)
      case None => None
      case Some(p) => Some((Some(p.0), p.1))
  }

  function ParseFields(s: string): Parsed {
    if |s| == 0 || s[0] != '[' then Malformed
    else match ParseString(s[1..])
      case None => Malformed
      case Some((id, r1)) =>
        if |r1| == 0 || r1[0] != ',' then Malformed
        else match ParseOptional(r1[1..])
          case None => Malformed
          case Some((email, r2)) =>
            if |r2| == 0 || r2[0] != ',' then Malformed
            else match ParseOptional(r2[1..])
              case None => Malformed
              case Some((role, r3)) =>
                if r3 == "]" then Value(Some(User(id, email, role))) else Malformed
  }

  /** Stands in for `JSON.parse(text)` on the texts the session can meet. */
  function Parse(text: string): Parsed {
    if text == "null" then Value(None) else ParseFields(text)
  }

  lemma {:induction false} BodyRoundTrip(x: string, rest: string)
    ensures ParseBody(Escape(x) + "\"" + rest) == Some((x, rest))
  {
    var s := Escape(x) + "\"" + rest;
    if x == [] {
      assert s == "\"" + rest;
      assert s[1..] == rest;
    } else {
      var tail := Escape(x[1..]) + "\"" + rest;
      BodyRoundTrip(x[1..], rest);
      var e := EscapedChar(x[0]);
      assert Escape(x) == e + Escape(x[1..]);
      assert s == e + tail;
      if NeedsEscape(x[0]) {
        assert s[0] == '\\' && s[1] == x[0];
        assert s[2..] == tail;
      } else {
        assert s[0] == x[0];
        assert s[1..] == tail;
      }
      assert [x[0]] + x[1..] == x;
    }
  }

  lemma StringRoundTrip(x: string, rest: string)
    ensures ParseString(Quote(x) + rest) == Some((x, rest))
  {
    assert (Quote(x) + rest)[1..] == Escape(x) + "\"" + rest;
    BodyRoundTrip(x, rest);
  }

  lemma OptionalRoundTrip(o: Option<string>, rest: string)
    ensures ParseOptional(OptionalText(o) + rest) == Some((o, rest))
  {
    var s := OptionalText(o) + rest;
    match o
    case None =>
      assert s[..4] == "null" && s[4..] == rest;
    case Some(v) =>
      assert s[0] == '"';
      StringRoundTrip(v, rest);
  }

  lemma FieldsParse(s: string, u: User, tail1: string, tail2: string)
    requires |s| > 0 && s[0] == '['
    requires ParseString(s[1..]) == Some((u.id, tail1))
    requires |tail1| > 0 && tail1[0] == ','
    requires ParseOptional(tail1[1..]) == Some((u.email, tail2))
    requires |tail2| > 0 && tail2[0] == ','
    requires ParseOptional(tail2[1..]) == Some((u.role, "]"))
    ensures ParseFields(s) == Value(Some(u))
  {
  }

  lemma SerializeShape(u: User, tail1: string, tail2: string)
    requires tail2 == "," + OptionalText(u.role) + "]"
    requires tail1 == "," + OptionalText(u.email) + tail2
    ensures Serialize(u)[1..] == Quote(u.id) + tail1
    ensures tail1[1..] == OptionalText(u.email) + tail2
    ensures tail2[1..] == OptionalText(u.role) + "]"
  {
    assert Serialize(u) == "[" + (Quote(u.id) + tail1);
  }

  /** Restoring what login stored gives back the same user. */
  lemma {:induction false} ParseSerialize(u: User)
    ensures Parse(Serialize(u)) == Value(Some(u))
  {
    var tail2 := "," + OptionalText(u.role) + "]";
    var tail1 := "," + OptionalText(u.email) + tail2;
    var s := Serialize(u);
    SerializeShape(u, tail1, tail2);
    StringRoundTrip(u.id, tail1);
    OptionalRoundTrip(u.email, tail2);
    OptionalRoundTrip(u.role, "]");
    FieldsParse(s, u, tail1, tail2);
    assert s != "null" by { assert s[0] != 'n'; }
  }
}
