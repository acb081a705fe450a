/** Shared helpers: optional values, HTTP-style replies, and the string
    operations the TypeScript code relies on (String.prototype.trim,
    startsWith, the `${first} ${last}` display name). */
module Common {

  datatype Option<T> = None | Some(value: T)

  /** The outcome of a library call that may throw. */
  datatype Result<T> = Ok(value: T) | Err(message: string)

  /** A route handler's response: a status code with a JSON body on success,
      or a status code with the list of detail strings the body carries
      (empty for every route except the plan validator). */
  datatype Reply<T> = Success(code: int, body: T) | Failure(code: int, details: seq<string>)

  function Fail<T>(code: int): Reply<T> { Failure(code, []) }

  /** The body of a reply that carries no data (`{ received: true }`, a
      plain-text acknowledgement). */
  datatype Ack = Ack

  /** A value read from a JSON body is "truthy" for a string when present and
      non-empty. */
  predicate Filled(s: Option<string>) { s.Some? && s.value != "" }

  /** ECMAScript WhiteSpace and LineTerminator code points: the characters
      String.prototype.trim removes. */
  predicate IsSpace(c: char)
  {
    c == '\t' || c == '\n' || c == '\U{000B}' || c == '\U{000C}' || c == '\r' || c == ' '
    || c == '\U{00A0}' || c == '\U{1680}' || ('\U{2000}' <= c <= '\U{200A}')
    || c == '\U{2028}' || c == '\U{2029}' || c == '\U{202F}' || c == '\U{205F}'
    || c == '\U{3000}' || c == '\U{FEFF}'
  }

  function TrimStart(s: string): (r: string)
    ensures |r| <= |s| && r == s[|s| - |r|..]
    ensures r != [] ==> !IsSpace(r[0])
    ensures forall i :: 0 <= i < |s| - |r| ==> IsSpace(s[i])
    ensures (forall i :: 0 <= i < |s| ==> IsSpace(s[i])) ==> r == []
  {
    if s != [] && IsSpace(s[0]) then TrimStart(s[1..]) else s
  }

  function TrimEnd(s: string): (r: string)
    ensures |r| <= |s| && r == s[..|r|]
    ensures r != [] ==> !IsSpace(r[|r| - 1])
    ensures forall i :: |r| <= i < |s| ==> IsSpace(s[i])
  {
    if s != [] && IsSpace(s[|s| - 1]) then TrimEnd(s[..|s| - 1]) else s
  }

  /** String.prototype.trim. */
  function Trim(s: string): string { TrimEnd(TrimStart(s)) }

  /** A non-empty trimmed string starts and ends with a non-space. */
  lemma TrimEnds(s: string)
    ensures Trim(s) != [] ==> !IsSpace(Trim(s)[0]) && !IsSpace(Trim(s)[|Trim(s)| - 1])
  {
    var t := TrimStart(s);
    if Trim(s) != [] {
      assert Trim(s)[0] == t[0];
    }
  }

  /** Trimming twice is the same as trimming once. */
  lemma TrimIdempotent(s: string)
    ensures Trim(Trim(s)) == Trim(s)
  {
    var r := Trim(s);
    TrimEnds(s);
    assert TrimStart(r) == r;
    assert TrimEnd(r) == r;
  }

  /** A string trims to the empty string exactly when it is all white space. */
  lemma TrimEmptyIff(s: string)
    ensures Trim(s) == [] <==> forall i :: 0 <= i < |s| ==> IsSpace(s[i])
  {
    var t := TrimStart(s);
    if Trim(s) == [] && t != [] {
      assert false;
    }
  }

  /** `x || ""` for an optional string field. */
  function OrEmpty(s: Option<string>): string
  {
    if s.Some? then s.value else ""
  }

  const DefaultUserName: string := "Usuário"

  /** `${first || ""} ${last || ""}`.trim() || "Usuário", the display name
      that both the identity webhook and the user sync store. */
  function DisplayName(first: Option<string>, last: Option<string>): (r: string)
    ensures r != []
    ensures r == DefaultUserName || r == Trim(OrEmpty(first) + " " + OrEmpty(last))
    ensures r == DefaultUserName <== Trim(OrEmpty(first) + " " + OrEmpty(last)) == []
  {
    var joined := Trim(OrEmpty(first) + " " + OrEmpty(last));
    if joined == [] then DefaultUserName else joined
  }

  /** With neither first nor last name the stored name is the default. */
  lemma NamelessUserGetsDefault()
    ensures DisplayName(None, None) == DefaultUserName
  {
    assert IsSpace(" "[0]);
    TrimEmptyIff(" ");
  }

  /** String.prototype.startsWith. */
  predicate StartsWith(s: string, prefix: string) { prefix <= s }

  function DigitChar(d: nat): (c: char)
    requires d < 10
    ensures '0' <= c <= '9'
  {
    (('0' as int) + d) as char
  }

  /** Decimal text of a record id, as the identity-provider metadata holds it. */
  function IdText(n: nat): (r: string)
    ensures r != []
    ensures forall i :: 0 <= i < |r| ==> '0' <= r[i] <= '9'
    decreases n
  {
    if n < 10 then [DigitChar(n)] else IdText(n / 10) + [DigitChar(n % 10)]
  }
}
